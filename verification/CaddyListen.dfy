/** Where a rendered configuration listens, and what stands behind each of its entries. */
module CaddyListen {
  import opened Text
  import opened Routing
  import opened CaddyMatch
  import opened CaddyRoute
  import opened CaddyOrder
  import opened CaddyRender
  import opened CaddyServe
  import Certificates

  /** A route names its protocol or has the one that goes with its certificate. */
  predicate Speaks(r: Route, protocol: string) {
    if r.listenerProtocol != "" then protocol == r.listenerProtocol
    else protocol == if r.https then "https" else "http"
  }

  /** A route with a port listens on that port at the host of the default listener of its protocol; one without a port
      on the default listener itself. */
  predicate ServedAt(lib: Library, setup: Setup, r: Route, protocol: string, address: string) {
    if r.listenerPort <= 0 then address == if protocol == "https" then setup.https else setup.http
    else
      var base := lib.split(if Lower(protocol) == "https" then setup.https else setup.http);
      address == if base.Some? then lib.join(base.value.0, lib.decimal(r.listenerPort))
      else ":" + lib.decimal(r.listenerPort)
  }

  lemma AddressIsServed(lib: Library, setup: Setup, r: Route)
    ensures Speaks(r, ProtocolOf(r)) && ServedAt(lib, setup, r, ProtocolOf(r), AddressOf(lib, setup, r))
    ensures forall protocol :: Speaks(r, protocol) ==> protocol == ProtocolOf(r)
  {
  }

  lemma {:induction false} EntriesMembers(setup: Setup, rs: seq<Route>, e: Entry)
    requires AllSound(setup, rs)
    ensures e in EntriesOf(setup, rs) <==>
            exists r <- rs :: e in RouteEntries(r, setup.policy, setup.auth, setup.ranges)
  {
    hide RouteError, RouteEntries;
    if rs != [] {
      EntriesMembers(setup, rs[..|rs| - 1], e);
      assert rs == rs[..|rs| - 1] + [rs[|rs| - 1]];
    }
  }

  lemma {:induction false} RedirectMembers(lib: Library, setup: Setup, rs: seq<Route>, e: Entry)
    ensures e in Redirects(lib, setup, rs) <==>
            exists r <- rs :: r.enabled && Redirected(setup, r) && e == RedirectEntry(lib, setup, r)
  {
    hide Redirected, RedirectEntry;
    if rs != [] {
      RedirectMembers(lib, setup, rs[..|rs| - 1], e);
      assert rs == rs[..|rs| - 1] + [rs[|rs| - 1]];
    }
  }

  /** Every enabled route has a server of its protocol at its place, which carries all its entries. */
  lemma RoutesAreServed(lib: Library, setup: Setup, input: seq<Route>, servers: Servers,
                        r: Route) returns (address: string)
    requires Rendered(lib, setup, input, servers) && r in AllRoutes(setup, input) && r.enabled
    ensures address in servers && Speaks(r, servers[address].protocol)
    ensures ServedAt(lib, setup, r, servers[address].protocol, address)
    ensures RouteError(r, setup.policy, setup.ranges).None?
    ensures forall e <- RouteEntries(r, setup.policy, setup.auth, setup.ranges) :: e in servers[address].entries
  {
    hide StableSort, AddressOf, ProtocolOf, Compatible, RouteError, RouteEntries, EntriesOf, On, Skips, Redirects,
      Speaks, ServedAt;
    var rs := StableSort(AllRoutes(setup, input));
    SortedMembers(AllRoutes(setup, input));
    PlacesMembers(lib, setup, rs);
    AddressIsServed(lib, setup, r);
    address := AddressOf(lib, setup, r);
    assert (address, ProtocolOf(r)) in Places(lib, setup, rs);
    OnRenders(lib, setup, rs, address);
    OnMembers(lib, setup, rs, address);
    forall e | e in RouteEntries(r, setup.policy, setup.auth, setup.ranges) ensures e in servers[address].entries {
      EntriesMembers(setup, On(lib, setup, rs, address), e);
    }
  }

  /** A redirect of an HTTPS route: to the port it is served on, which is left out when it is 443. */
  ghost predicate RedirectsTo(lib: Library, setup: Setup, r: Route, e: Entry) {
    && Speaks(r, "https") && e.matcher.host == r.host
    && e.matcher.paths == (if r.pathPrefix != "" then Some(PathMatchers(r.pathPrefix)) else None)
    && exists at: string, host: string, port: string ::
         && ServedAt(lib, setup, r, "https", at) && lib.split(at) == Some((host, port))
         && e.action == Redirect(if port == "443" then "" else port)
  }

  /** Every entry of a server is one of a route served there or, on the default HTTP server, the redirect of an HTTPS
      route. */
  lemma EntriesAreOfRoutes(
    lib: Library, setup: Setup, input: seq<Route>, servers: Servers, address: string, e: Entry)
    returns (r: Route)
    requires Rendered(lib, setup, input, servers) && address in servers && e in servers[address].entries
    ensures r in AllRoutes(setup, input) && r.enabled
    ensures || (RouteError(r, setup.policy, setup.ranges).None?
                && e in RouteEntries(r, setup.policy, setup.auth, setup.ranges)
                && ServedAt(lib, setup, r, servers[address].protocol, address) && Speaks(r, servers[address].protocol))
            || (address == setup.http != "" && RedirectsTo(lib, setup, r, e))
  {
    hide StableSort, AddressOf, ProtocolOf, Compatible, RouteError, RouteEntries, EntriesOf, On, Skips, Redirects,
      Speaks, ServedAt, RedirectEntry, RedirectsTo, Redirected;
    var rs := StableSort(AllRoutes(setup, input));
    SortedMembers(AllRoutes(setup, input));
    OnRenders(lib, setup, rs, address);
    OnMembers(lib, setup, rs, address);
    var on := On(lib, setup, rs, address);
    EntriesMembers(setup, on, e);
    RedirectMembers(lib, setup, rs, e);
    if e in EntriesOf(setup, on) {
      r :| r in on && e in RouteEntries(r, setup.policy, setup.auth, setup.ranges);
      PlacesMembers(lib, setup, rs);
      AddressIsServed(lib, setup, r);
      assert (address, ProtocolOf(r)) in Places(lib, setup, rs);
    } else {
      assert e in Redirects(lib, setup, rs);
      r :| r in rs && r.enabled && Redirected(setup, r) && e == RedirectEntry(lib, setup, r);
      RedirectIsTo(lib, setup, r, rs);
    }
  }

  lemma RedirectIsTo(lib: Library, setup: Setup, r: Route, rs: seq<Route>)
    requires AllRender(lib, setup, rs) && r in rs && r.enabled && Redirected(setup, r)
    ensures RedirectsTo(lib, setup, r, RedirectEntry(lib, setup, r)) && setup.http != ""
  {
    hide AddressOf, ProtocolOf, Speaks, ServedAt, RouteError, PathMatchers;
    AddressIsServed(lib, setup, r);
    var at := AddressOf(lib, setup, r);
    assert RouteRenders(lib, setup, r);
    var parts := lib.split(at).value;
    assert lib.split(at) == Some((parts.0, parts.1));
  }

  /** Every HTTPS route is redirected to from the default HTTP server, if there is one. */
  lemma RedirectsAreServed(lib: Library, setup: Setup, input: seq<Route>, servers: Servers, r: Route)
    returns (e: Entry)
    requires Rendered(lib, setup, input, servers) && r in AllRoutes(setup, input) && r.enabled
    requires Speaks(r, "https") && setup.http != ""
    ensures setup.http in servers && e in servers[setup.http].entries && RedirectsTo(lib, setup, r, e)
  {
    hide StableSort, AddressOf, Compatible, RouteError, RouteEntries, EntriesOf, On, Skips, Redirects, ServedAt,
      RedirectEntry, RedirectsTo;
    var rs := StableSort(AllRoutes(setup, input));
    SortedMembers(AllRoutes(setup, input));
    PlacesMembers(lib, setup, rs);
    assert (setup.http, "http") in Listeners(setup);
    assert (setup.http, "http") in Places(lib, setup, rs);
    e := RedirectEntry(lib, setup, r);
    RedirectMembers(lib, setup, rs, e);
    RedirectIsTo(lib, setup, r, rs);
  }

  /** What has to listen: a default listener, or an enabled route at its place. */
  predicate Wanted(lib: Library, setup: Setup, input: seq<Route>, address: string, protocol: string) {
    || (address == setup.http != "" && protocol == "http") || (address == setup.https != "" && protocol == "https")
    || exists r <- AllRoutes(setup, input) :: r.enabled && Speaks(r, protocol)
                                              && ServedAt(lib, setup, r, protocol, address)
  }

  lemma WantedPlaces(lib: Library, setup: Setup, input: seq<Route>, address: string, protocol: string)
    ensures (address, protocol) in Places(lib, setup, StableSort(AllRoutes(setup, input))) <==>
            Wanted(lib, setup, input, address, protocol)
  {
    hide StableSort, AllRoutes;
    SortedMembers(AllRoutes(setup, input));
    PlacesMembers(lib, setup, StableSort(AllRoutes(setup, input)));
    forall r ensures Speaks(r, protocol) && ServedAt(lib, setup, r, protocol, address) <==>
                     (address, protocol) == (AddressOf(lib, setup, r), ProtocolOf(r))
    {
      AddressIsServed(lib, setup, r);
    }
  }

  /** A server runs exactly where something has to listen. */
  lemma ServersAreWanted(lib: Library, setup: Setup, input: seq<Route>, servers: Servers)
    requires Rendered(lib, setup, input, servers)
    ensures forall address, protocol :: (address in servers && servers[address].protocol == protocol) <==>
                                        Wanted(lib, setup, input, address, protocol)
  {
    hide StableSort, AllRender, HoldsAt, Places, Wanted, Compatible;
    forall address, protocol ensures (address in servers && servers[address].protocol == protocol) <==>
                                     Wanted(lib, setup, input, address, protocol)
    {
      WantedPlaces(lib, setup, input, address, protocol);
    }
  }

  /** Two listeners meet at one address, or at one port with one host or with a host that takes all. */
  ghost predicate Meet(lib: Library, a: string, b: string) {
    a == b || exists h: string, k: string, port: string ::
      && lib.split(a) == Some((h, port)) && lib.split(b) == Some((k, port))
      && (h == k || h in ["", "0.0.0.0", "::"] || k in ["", "0.0.0.0", "::"])
  }

  lemma MeetingOverlaps(lib: Library, a: string, b: string)
    ensures Meet(lib, a, b) <==> Overlap(lib, a, b)
  {
    if lib.split(a).Some? && lib.split(b).Some? {
      var l, r := lib.split(a).value, lib.split(b).value;
      assert lib.split(a) == Some((l.0, l.1)) && lib.split(b) == Some((r.0, r.1));
    }
  }

  /** A route that can be placed and rendered, and redirected to if it is served over HTTPS. */
  ghost predicate Placeable(lib: Library, setup: Setup, r: Route) {
    && CanRender(r, setup.policy, setup.ranges)
    && exists protocol, address ::
         && Speaks(r, protocol) && ServedAt(lib, setup, r, protocol, address) && address != ""
         && (protocol == "https" && setup.http != "" ==> lib.split(address).Some?)
  }

  lemma PlaceableRenders(lib: Library, setup: Setup, r: Route)
    ensures Placeable(lib, setup, r) <==> RouteRenders(lib, setup, r)
  {
    hide CanRender, RouteError, AddressOf, Speaks, ServedAt, ProtocolOf;
    RenderableExactly(r, setup.policy, setup.ranges);
    AddressIsServed(lib, setup, r);
    OnePlace(lib, setup, r);
  }

  lemma OnePlace(lib: Library, setup: Setup, r: Route)
    ensures forall protocol, address :: Speaks(r, protocol) && ServedAt(lib, setup, r, protocol, address) ==>
                                          protocol == ProtocolOf(r) && address == AddressOf(lib, setup, r)
  {
  }

  /** When a configuration renders: the management host is guarded by a token, every enabled route can be placed and
      rendered, nothing of different protocols meets, and something listens. */
  ghost predicate CanServe(lib: Library, setup: Setup, input: seq<Route>) {
    && (setup.managementHost != "" ==> setup.auth.required && exists t :: Accepts(setup.auth, t))
    && (forall r <- AllRoutes(setup, input) :: r.enabled ==> Placeable(lib, setup, r))
    && (forall a, p, b, q :: Wanted(lib, setup, input, a, p) && Wanted(lib, setup, input, b, q) && p != q ==>
                               !Meet(lib, a, b))
    && exists a, p :: Wanted(lib, setup, input, a, p)
  }

  lemma RendersExactly(lib: Library, setup: Setup, input: seq<Route>)
    ensures Renders(lib, setup, input) <==> CanServe(lib, setup, input)
  {
    hide StableSort, AllRoutes, Places, Placeable, RouteRenders, Meet, Overlap, Wanted, Accepts, AuthTokens;
    var rs := StableSort(AllRoutes(setup, input));
    SortedMembers(AllRoutes(setup, input));
    forall r ensures Placeable(lib, setup, r) <==> RouteRenders(lib, setup, r) {
      PlaceableRenders(lib, setup, r);
    }
    GuardedByToken(setup);
    CompatibleExactly(lib, setup, input);
  }

  lemma GuardedByToken(setup: Setup)
    ensures ManagementGuarded(setup) <==>
            (setup.managementHost != "" ==> setup.auth.required && exists t :: Accepts(setup.auth, t))
  {
    hide Accepts, AuthTokens;
    AcceptedTokens(setup.auth);
    if AuthTokens(setup.auth) != [] {
      assert AuthTokens(setup.auth)[0] in AuthTokens(setup.auth);
    }
  }

  lemma CompatibleExactly(lib: Library, setup: Setup, input: seq<Route>)
    ensures var places := Places(lib, setup, StableSort(AllRoutes(setup, input)));
            && (Compatible(lib, places) <==>
                forall a, p, b, q :: Wanted(lib, setup, input, a, p) && Wanted(lib, setup, input, b, q) && p != q ==>
                                       !Meet(lib, a, b))
            && (places != [] <==> exists a, p :: Wanted(lib, setup, input, a, p))
  {
    hide StableSort, AllRoutes, Places, Meet, Overlap, Wanted;
    var places := Places(lib, setup, StableSort(AllRoutes(setup, input)));
    forall a, p ensures (a, p) in places <==> Wanted(lib, setup, input, a, p) {
      WantedPlaces(lib, setup, input, a, p);
    }
    forall a, b ensures Meet(lib, a, b) <==> Overlap(lib, a, b) {
      MeetingOverlaps(lib, a, b);
    }
    if places != [] {
      assert (places[0].0, places[0].1) in places;
    }
    forall x, y | x in places && y in places
      ensures Wanted(lib, setup, input, x.0, x.1) && Wanted(lib, setup, input, y.0, y.1)
    {
      assert (x.0, x.1) in places && (y.0, y.1) in places;
    }
  }

  // ---------- Skipped certificates ----------

  lemma {:induction false} SkipMembers(setup: Setup, rs: seq<Route>, h: string)
    ensures h in Skips(setup, rs) <==>
            exists r <- rs :: r.host == h && ProtocolOf(r) == "https" && Certificates.WildcardCovers(setup.subjects, h)
  {
    hide ProtocolOf, Certificates.WildcardCovers;
    if rs != [] {
      SkipMembers(setup, rs[..|rs| - 1], h);
      assert rs == rs[..|rs| - 1] + [rs[|rs| - 1]];
      AppendedMembers(Skips(setup, rs[..|rs| - 1]), [rs[|rs| - 1].host]);
    }
  }

  /** A server skips the certificate of exactly those HTTPS hosts it serves that a wildcard subject covers. */
  lemma SkippedExactly(
    lib: Library, setup: Setup, input: seq<Route>, servers: Servers, address: string, h: string)
    requires Rendered(lib, setup, input, servers) && address in servers
    ensures h in servers[address].skip <==>
            && !Certificates.Wild(NormalizeName(h))
            && (exists s <- setup.subjects :: Certificates.Wild(NormalizeName(s)) && Certificates.Covers(s, h))
            && exists r <- AllRoutes(setup, input) ::
                 r.enabled && r.host == h && Speaks(r, "https") && ServedAt(lib, setup, r, "https", address)
  {
    hide StableSort, AllRoutes, Places, Listens, Compatible, AllRender, RouteEntries, EntriesOf, Skips, On,
      Certificates.Wild, Certificates.Covers, Certificates.WildcardCovers, NormalizeName, AddressOf, ProtocolOf,
      Redirects, ServedAt, Speaks;
    var rs := StableSort(AllRoutes(setup, input));
    SortedMembers(AllRoutes(setup, input));
    OnMembers(lib, setup, rs, address);
    SkipMembers(setup, On(lib, setup, rs, address), h);
    Certificates.SkippingAgreesWithCovers(setup.subjects, h);
    forall r ensures Speaks(r, "https") && ServedAt(lib, setup, r, "https", address) <==>
                     ProtocolOf(r) == "https" && AddressOf(lib, setup, r) == address
    {
      AddressIsServed(lib, setup, r);
      OnePlace(lib, setup, r);
    }
  }

  lemma ApartWhenNotOverlapping(lib: Library, a: string, b: string, h: string, k: string, port: string)
    requires !Overlap(lib, a, b)
    ensures a != b
    ensures lib.split(a) == Some((h, port)) && lib.split(b) == Some((k, port)) ==>
              h != k && h !in ["", "0.0.0.0", "::"] && k !in ["", "0.0.0.0", "::"]
  {
  }

  lemma ServersDoNotOverlap(lib: Library, setup: Setup, input: seq<Route>, servers: Servers, a: string, b: string)
    requires Rendered(lib, setup, input, servers) && a in servers && b in servers
    requires servers[a].protocol != servers[b].protocol
    ensures !Overlap(lib, a, b)
  {
    hide StableSort, AllRender, HoldsAt, Overlap, Places;
    var places := Places(lib, setup, StableSort(AllRoutes(setup, input)));
    assert (a, servers[a].protocol) in places && (b, servers[b].protocol) in places;
  }

  /** Servers of different protocols never meet: neither at one address nor at one port with a host that takes all. */
  lemma ServersStayApart(
    lib: Library, setup: Setup, input: seq<Route>, servers: Servers, a: string, b: string, h: string, k: string,
    port: string)
    requires Rendered(lib, setup, input, servers) && a in servers && b in servers
    requires servers[a].protocol != servers[b].protocol
    ensures a != b
    ensures lib.split(a) == Some((h, port)) && lib.split(b) == Some((k, port)) ==>
              h != k && h !in ["", "0.0.0.0", "::"] && k !in ["", "0.0.0.0", "::"]
  {
    hide Rendered, Overlap;
    ServersDoNotOverlap(lib, setup, input, servers, a, b);
    ApartWhenNotOverlapping(lib, a, b, h, k, port);
  }

  /** The management host is served over HTTPS from the gateway's own port, and only when the API asks for a token. */
  lemma ManagementIsServed(lib: Library, setup: Setup, input: seq<Route>)
    requires Renders(lib, setup, input) && setup.managementHost != ""
    ensures setup.auth.required && exists t :: Accepts(setup.auth, t)
    ensures exists m <- AllRoutes(setup, input) ::
              && AllRoutes(setup, input) == input + [m]
              && m.enabled && m.host == setup.managementHost && m.pathPrefix == "" && m.listenerPort == 0
              && Speaks(m, "https") && m.exposure == "public" && !m.isProtected
              && |m.upstreams| == 1 && m.upstreams[0].url == setup.managementTarget
  {
    hide StableSort, AllRender, Compatible, Places;
    AcceptedTokens(setup.auth);
    assert AuthTokens(setup.auth)[0] in AuthTokens(setup.auth);
    assert ManagementRoute(setup) in AllRoutes(setup, input);
  }
}
