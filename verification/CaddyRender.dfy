/** The whole configuration: routes sorted, placed on servers and compiled into first-match entries. */
module CaddyRender {
  import opened Text
  import opened Routing
  import opened CaddyMatch
  import opened CaddyRoute
  import opened CaddyOrder
  import Certificates
  import Protocol

  /** The address functions of the network library. */
  datatype Library = Library(
    split: string -> Option<(string, string)>, join: (string, string) -> string, decimal: int -> string)

  /** What the renderer reads of the configuration. */
  datatype Setup = Setup(
    managementHost: string, managementTarget: Url, auth: Protocol.Auth, policy: Policy, ranges: seq<string>,
    http: string, https: string, subjects: seq<string>)

  datatype Server = Server(protocol: string, entries: seq<Entry>, skip: seq<string>)

  type Servers = map<string, Server>

  predicate AnyHost(host: string) {
    host == "" || host == "0.0.0.0" || host == "::"
  }

  predicate Overlap(lib: Library, left: string, right: string) {
    match (lib.split(left), lib.split(right))
    case (Some(l), Some(r)) => l.1 == r.1 && (l.0 == r.0 || AnyHost(l.0) || AnyHost(r.0))
    case _ => left == right
  }

  // ---------- Where a route goes ----------

  function ProtocolOf(r: Route): string {
    if r.listenerProtocol != "" then r.listenerProtocol else if r.https then "https" else "http"
  }

  function ListenerAddress(lib: Library, setup: Setup, protocol: string, port: int): string {
    var base := if Lower(protocol) == "https" then setup.https else setup.http;
    match lib.split(base)
    case None => ":" + lib.decimal(port)
    case Some(parts) => lib.join(parts.0, lib.decimal(port))
  }

  /** The address a route listens on; "" when there is none. */
  function AddressOf(lib: Library, setup: Setup, r: Route): string {
    if r.listenerPort > 0 then ListenerAddress(lib, setup, ProtocolOf(r), r.listenerPort)
    else if ProtocolOf(r) == "https" then setup.https
    else setup.http
  }

  function ManagementRoute(setup: Setup): Route {
    Route(
      "management-ui", "", setup.managementHost, "", "", 0, "", "", "", "", "public", true, true, true, false, false,
      "management", map[], Security(false, 0, [], [], [], []),
      [Upstream("management-ui", setup.managementTarget, "")], "", 0)
  }

  function AllRoutes(setup: Setup, input: seq<Route>): seq<Route> {
    if setup.managementHost != "" then input + [ManagementRoute(setup)] else input
  }

  predicate ManagementGuarded(setup: Setup) {
    setup.managementHost != "" ==> setup.auth.required && AuthTokens(setup.auth) != []
  }

  function Listeners(setup: Setup): seq<(string, string)> {
    (if setup.http != "" then [(setup.http, "http")] else [])
    + (if setup.https != "" then [(setup.https, "https")] else [])
  }

  /** Everything that has to listen: the default listeners and the place of every enabled route. */
  function Places(lib: Library, setup: Setup, rs: seq<Route>): seq<(string, string)> {
    if rs == [] then Listeners(setup)
    else
      var before, r := Places(lib, setup, rs[..|rs| - 1]), rs[|rs| - 1];
      if r.enabled then before + [(AddressOf(lib, setup, r), ProtocolOf(r))] else before
  }

  predicate Compatible(lib: Library, places: seq<(string, string)>) {
    forall p <- places, q <- places :: p.1 != q.1 ==> !Overlap(lib, p.0, q.0)
  }

  predicate Redirected(setup: Setup, r: Route) {
    ProtocolOf(r) == "https" && setup.http != ""
  }

  predicate RouteRenders(lib: Library, setup: Setup, r: Route) {
    && AddressOf(lib, setup, r) != "" && RouteError(r, setup.policy, setup.ranges).None?
    && (Redirected(setup, r) ==> lib.split(AddressOf(lib, setup, r)).Some?)
  }

  predicate AllRender(lib: Library, setup: Setup, rs: seq<Route>) {
    forall r <- rs :: r.enabled ==> RouteRenders(lib, setup, r)
  }

  /** What a configuration needs to be rendered at all. */
  predicate Renders(lib: Library, setup: Setup, input: seq<Route>) {
    var rs := StableSort(AllRoutes(setup, input));
    ManagementGuarded(setup) && AllRender(lib, setup, rs) && Compatible(lib, Places(lib, setup, rs))
    && Places(lib, setup, rs) != []
  }

  // ---------- What each server gets ----------

  function On(lib: Library, setup: Setup, rs: seq<Route>, address: string): seq<Route> {
    if rs == [] then []
    else
      var before, r := On(lib, setup, rs[..|rs| - 1], address), rs[|rs| - 1];
      if r.enabled && AddressOf(lib, setup, r) == address then before + [r] else before
  }

  function EntriesOf(setup: Setup, rs: seq<Route>): seq<Entry>
    requires forall r <- rs :: RouteError(r, setup.policy, setup.ranges).None?
  {
    if rs == [] then []
    else EntriesOf(setup, rs[..|rs| - 1]) + RouteEntries(rs[|rs| - 1], setup.policy, setup.auth, setup.ranges)
  }

  function RedirectEntry(lib: Library, setup: Setup, r: Route): Entry {
    var port := match lib.split(AddressOf(lib, setup, r)) case Some(parts) => parts.1 case None => "";
    var paths := if r.pathPrefix != "" then Some(PathMatchers(r.pathPrefix)) else None;
    Entry(Match(r.host, None, None, paths, None, None, None, None), Redirect(if port == "443" then "" else port))
  }

  function Redirects(lib: Library, setup: Setup, rs: seq<Route>): seq<Entry> {
    if rs == [] then []
    else
      var before, r := Redirects(lib, setup, rs[..|rs| - 1]), rs[|rs| - 1];
      if r.enabled && Redirected(setup, r) then before + [RedirectEntry(lib, setup, r)] else before
  }

  /** The skipped certificates with a route's host among them when a wildcard subject covers it. */
  function SkipsWith(setup: Setup, skip: seq<string>, r: Route): seq<string> {
    if ProtocolOf(r) == "https" && Certificates.WildcardCovers(setup.subjects, r.host)
    then AppendUnique(skip, [r.host]) else skip
  }

  function Skips(setup: Setup, rs: seq<Route>): seq<string> {
    if rs == [] then []
    else
      var before, r := Skips(setup, rs[..|rs| - 1]), rs[|rs| - 1];
      SkipsWith(setup, before, r)
  }

  lemma {:induction false} OnMembers(lib: Library, setup: Setup, rs: seq<Route>, address: string)
    ensures forall r :: r in On(lib, setup, rs, address) <==>
                        r in rs && r.enabled && AddressOf(lib, setup, r) == address
  {
    hide AddressOf;
    if rs != [] {
      OnMembers(lib, setup, rs[..|rs| - 1], address);
      assert rs == rs[..|rs| - 1] + [rs[|rs| - 1]];
    }
  }

  lemma {:induction false} PlacesMembers(lib: Library, setup: Setup, rs: seq<Route>)
    ensures forall p :: p in Places(lib, setup, rs) <==>
                        p in Listeners(setup) || exists r <- rs ::
                          r.enabled && p == (AddressOf(lib, setup, r), ProtocolOf(r))
  {
    hide AddressOf, ProtocolOf, Listeners;
    if rs != [] {
      PlacesMembers(lib, setup, rs[..|rs| - 1]);
      assert rs == rs[..|rs| - 1] + [rs[|rs| - 1]];
    }
  }

  lemma OnRenders(lib: Library, setup: Setup, rs: seq<Route>, address: string)
    requires AllRender(lib, setup, rs)
    ensures forall r <- On(lib, setup, rs, address) :: RouteError(r, setup.policy, setup.ranges).None?
  {
    hide RouteError, AddressOf;
    OnMembers(lib, setup, rs, address);
  }

  /** There is one server per place, and it has the place's protocol. */
  ghost predicate Listens(servers: Servers, places: seq<(string, string)>) {
    forall address, protocol :: (address in servers && servers[address].protocol == protocol) <==>
                                (address, protocol) in places
  }

  /** The servers after some routes. */
  ghost predicate Holds(lib: Library, setup: Setup, rs: seq<Route>, servers: Servers) {
    && AllRender(lib, setup, rs) && Compatible(lib, Places(lib, setup, rs)) && Listens(servers, Places(lib, setup, rs))
    && forall address <- servers :: HoldsAt(lib, setup, rs, address, servers[address])
  }

  /** A server carries the entries and the skipped certificates of its routes, in order. */
  predicate HoldsAt(lib: Library, setup: Setup, rs: seq<Route>, address: string, server: Server)
    requires AllRender(lib, setup, rs)
  {
    OnRenders(lib, setup, rs, address);
    server.entries == EntriesOf(setup, On(lib, setup, rs, address))
    && server.skip == Skips(setup, On(lib, setup, rs, address))
  }

  // ---------- Rendering ----------

  lemma OverlapItself(lib: Library, address: string)
    ensures Overlap(lib, address, address)
  {
  }

  predicate Conflicts(lib: Library, servers: Servers, address: string, protocol: string) {
    exists a <- servers :: servers[a].protocol != protocol && Overlap(lib, a, address)
  }

  /** Opens a server unless one with another protocol would share its address. */
  method EnsureServer(lib: Library, servers: Servers, address: string, protocol: string) returns (out: Outcome<Servers>)
    ensures out == if Conflicts(lib, servers, address, protocol) then Bad(ListenerConflict)
                   else Good(if address in servers then servers else servers[address := Server(protocol, [], [])])
  {
    var left := servers.Keys;
    while left != {}
      invariant left <= servers.Keys
      invariant forall a <- servers.Keys - left :: !(servers[a].protocol != protocol && Overlap(lib, a, address))
    {
      var a :| a in left;
      if servers[a].protocol != protocol && Overlap(lib, a, address) {
        return Bad(ListenerConflict);
      }
      left := left - {a};
    }
    return Good(if address in servers then servers else servers[address := Server(protocol, [], [])]);
  }

  /** The effect of one route on values. */
  function Added(
    lib: Library, setup: Setup, r: Route, servers: Servers, redirects: seq<Entry>): Outcome<(Servers, seq<Entry>)>
  {
    var protocol, address := ProtocolOf(r), AddressOf(lib, setup, r);
    if address == "" then Bad(NoListener)
    else if Conflicts(lib, servers, address, protocol) then Bad(ListenerConflict)
    else
      match RouteError(r, setup.policy, setup.ranges)
      case Some(e) => Bad(e)
      case None =>
        if Redirected(setup, r) && lib.split(address).None? then Bad(BadAddress)
        else
          var server := if address in servers then servers[address] else Server(protocol, [], []);
          var entries := server.entries + RouteEntries(r, setup.policy, setup.auth, setup.ranges);
          Good((servers[address := Server(server.protocol, entries, SkipsWith(setup, server.skip, r))],
                if Redirected(setup, r) then redirects + [RedirectEntry(lib, setup, r)] else redirects))
  }

  lemma OverlapSymmetric(lib: Library, left: string, right: string)
    ensures Overlap(lib, left, right) == Overlap(lib, right, left)
  {
  }

  lemma OneMorePlace(lib: Library, servers: Servers, places: seq<(string, string)>, address: string, protocol: string)
    requires Listens(servers, places) && Compatible(lib, places)
    ensures Conflicts(lib, servers, address, protocol) <==> !Compatible(lib, places + [(address, protocol)])
    ensures !Conflicts(lib, servers, address, protocol) ==>
              Listens(if address in servers then servers else servers[address := Server(protocol, [], [])],
                      places + [(address, protocol)])
  {
    hide Overlap;
    var more := places + [(address, protocol)];
    OverlapItself(lib, address);
    assert more[|places|] == (address, protocol);
    forall a | a in servers
      ensures (a, servers[a].protocol) in more && Overlap(lib, a, address) == Overlap(lib, address, a)
    {
      OverlapSymmetric(lib, a, address);
      assert (a, servers[a].protocol) in places;
    }
    if !Conflicts(lib, servers, address, protocol) {
      if address in servers {
        assert servers[address].protocol == protocol;
      }
      forall p, q | p in more && q in more && p.1 != q.1 ensures !Overlap(lib, p.0, q.0) {
        assert p in places ==> p.0 in servers && servers[p.0].protocol == p.1;
        assert q in places ==> q.0 in servers && servers[q.0].protocol == q.1;
      }
    }
  }

  lemma OnOneMore(lib: Library, setup: Setup, rs: seq<Route>, r: Route, address: string)
    ensures On(lib, setup, rs + [r], address) ==
            if r.enabled && AddressOf(lib, setup, r) == address then On(lib, setup, rs, address) + [r]
            else On(lib, setup, rs, address)
    ensures Places(lib, setup, rs + [r]) ==
            if r.enabled then Places(lib, setup, rs) + [(AddressOf(lib, setup, r), ProtocolOf(r))]
            else Places(lib, setup, rs)
    ensures Redirects(lib, setup, rs + [r]) ==
            if r.enabled && Redirected(setup, r) then Redirects(lib, setup, rs) + [RedirectEntry(lib, setup, r)]
            else Redirects(lib, setup, rs)
    ensures AllRender(lib, setup, rs + [r]) <==>
            AllRender(lib, setup, rs) && (r.enabled ==> RouteRenders(lib, setup, r))
  {
    hide AddressOf, ProtocolOf, RouteRenders, RedirectEntry, Redirected;
    assert (rs + [r])[..|rs|] == rs;
  }

  lemma EntriesOneMore(setup: Setup, rs: seq<Route>, r: Route)
    requires forall q <- rs + [r] :: RouteError(q, setup.policy, setup.ranges).None?
    ensures EntriesOf(setup, rs + [r]) == EntriesOf(setup, rs) + RouteEntries(r, setup.policy, setup.auth, setup.ranges)
    ensures Skips(setup, rs + [r]) == SkipsWith(setup, Skips(setup, rs), r)
  {
    hide RouteEntries, RouteError, Certificates.WildcardCovers, ProtocolOf;
    assert (rs + [r])[..|rs|] == rs;
  }

  /** Another server's routes are untouched; this server gains the route's entries. */
  lemma ServerGains(lib: Library, setup: Setup, rs: seq<Route>, r: Route, address: string, server: Server)
    requires AllRender(lib, setup, rs + [r]) && AllRender(lib, setup, rs) && r.enabled
    requires HoldsAt(lib, setup, rs, address, server)
    ensures AddressOf(lib, setup, r) != address ==> HoldsAt(lib, setup, rs + [r], address, server)
    ensures AddressOf(lib, setup, r) == address ==>
              && RouteError(r, setup.policy, setup.ranges).None?
              && var entries := server.entries + RouteEntries(r, setup.policy, setup.auth, setup.ranges);
              HoldsAt(lib, setup, rs + [r], address,
                      server.(entries := entries, skip := SkipsWith(setup, server.skip, r)))
  {
    hide RouteEntries, RouteError, SkipsWith, ProtocolOf, AddressOf, EntriesOf, Skips;
    OnRenders(lib, setup, rs, address);
    OnRenders(lib, setup, rs + [r], address);
    OnOneMore(lib, setup, rs, r, address);
    if AddressOf(lib, setup, r) == address {
      assert r in On(lib, setup, rs + [r], address);
      EntriesOneMore(setup, On(lib, setup, rs, address), r);
    }
  }

  /** No route of the list is placed where no server listens. */
  lemma NothingThere(lib: Library, setup: Setup, rs: seq<Route>, servers: Servers, address: string)
    requires AllRender(lib, setup, rs) && Listens(servers, Places(lib, setup, rs)) && address !in servers
    ensures HoldsAt(lib, setup, rs, address, Server("", [], []))
  {
    hide RouteEntries, RouteError, AddressOf, ProtocolOf, Places;
    if On(lib, setup, rs, address) != [] {
      PlacedOnServer(lib, setup, rs, address, On(lib, setup, rs, address)[0]);
    }
  }

  lemma PlacedOnServer(lib: Library, setup: Setup, rs: seq<Route>, address: string, r: Route)
    requires r in On(lib, setup, rs, address)
    ensures (address, ProtocolOf(r)) in Places(lib, setup, rs)
  {
    hide AddressOf, ProtocolOf, Listeners;
    OnMembers(lib, setup, rs, address);
    PlacesMembers(lib, setup, rs);
  }

  lemma ProtocolDoesNotMatter(lib: Library, setup: Setup, rs: seq<Route>, address: string, a: Server, b: Server)
    requires AllRender(lib, setup, rs) && HoldsAt(lib, setup, rs, address, a) && a.entries == b.entries
    requires a.skip == b.skip
    ensures HoldsAt(lib, setup, rs, address, b)
  {
    hide EntriesOf, Skips, On;
  }

  /** One step of the loop: it succeeds exactly when the routes so far and this one render together. */
  lemma AddedHolds(lib: Library, setup: Setup, rs: seq<Route>, r: Route, servers: Servers, redirects: seq<Entry>)
    requires Holds(lib, setup, rs, servers) && redirects == Redirects(lib, setup, rs) && r.enabled
    ensures var added := Added(lib, setup, r, servers, redirects);
            && (added.Good? <==> AllRender(lib, setup, rs + [r]) && Compatible(lib, Places(lib, setup, rs + [r])))
            && (added.Good? ==>
                  Holds(lib, setup, rs + [r], added.value.0) && added.value.1 == Redirects(lib, setup, rs + [r]))
  {
    hide RouteEntries, RouteError, AddressOf, ProtocolOf, Compatible, Listens, HoldsAt, Conflicts,
      Certificates.WildcardCovers, AppendUnique, RedirectEntry, AllRender;
    var address, protocol := AddressOf(lib, setup, r), ProtocolOf(r);
    var places := Places(lib, setup, rs);
    OnOneMore(lib, setup, rs, r, address);
    OneMorePlace(lib, servers, places, address, protocol);
    var added := Added(lib, setup, r, servers, redirects);
    if added.Good? {
      var next := added.value.0;
      var before := if address in servers then servers[address] else Server(protocol, [], []);
      if address !in servers {
        NothingThere(lib, setup, rs, servers, address);
        ProtocolDoesNotMatter(lib, setup, rs, address, Server("", [], []), before);
      }
      SameListening(if address in servers then servers else servers[address := Server(protocol, [], [])], next,
                    places + [(address, protocol)]);
      forall a | a in next ensures HoldsAt(lib, setup, rs + [r], a, next[a]) {
        ServerGains(lib, setup, rs, r, a, if a == address then before else servers[a]);
      }
    }
  }

  /** One more route: its server, its entries, its skipped certificate and its redirect. It succeeds exactly when the
      routes so far and this one render together. */
  method AddRoute(
    lib: Library, setup: Setup, r: Route, servers: Servers, redirects: seq<Entry>, ghost rs: seq<Route>)
    returns (out: Outcome<(Servers, seq<Entry>)>)
    requires Holds(lib, setup, rs, servers) && redirects == Redirects(lib, setup, rs) && r.enabled
    ensures out.Good? <==> AllRender(lib, setup, rs + [r]) && Compatible(lib, Places(lib, setup, rs + [r]))
    ensures out.Good? ==> Holds(lib, setup, rs + [r], out.value.0) && out.value.1 == Redirects(lib, setup, rs + [r])
    ensures out.Bad? ==> out == Added(lib, setup, r, servers, redirects)
  {
    hide RouteError, RouteEntries, Overlap, AddressOf, Certificates.WildcardCovers, ListenerAddress, Holds, AllRender,
      Compatible, Places, Redirects;
    AddedHolds(lib, setup, rs, r, servers, redirects);
    var protocol := ProtocolOf(r);
    var address := AddressOf(lib, setup, r);
    if address == "" {
      return Bad(NoListener);
    }
    var ensured := EnsureServer(lib, servers, address, protocol);
    if ensured.Bad? {
      return Bad(ensured.error);
    }
    var changed := ensured.value;
    var server := changed[address];
    if protocol == "https" {
      var covered := Certificates.WildcardCertificateCoversHost(setup.subjects, r.host);
      if covered {
        var skip := AppendEachUnique(server.skip, [r.host]);
        server := server.(skip := skip);
      }
    }
    var rendered := RenderRoute(r, setup.auth, setup.policy, setup.ranges);
    if rendered.Bad? {
      return Bad(rendered.error);
    }
    server := server.(entries := server.entries + rendered.value);
    var more := redirects;
    if protocol == "https" && setup.http != "" {
      if lib.split(address).None? {
        return Bad(BadAddress);
      }
      more := more + [RedirectEntry(lib, setup, r)];
    }
    assert changed[address := server] == servers[address := server];
    out := Good((servers[address := server], more));
    assert out == Added(lib, setup, r, servers, redirects);
  }

  lemma SameListening(servers: Servers, next: Servers, places: seq<(string, string)>)
    requires Listens(servers, places) && next.Keys == servers.Keys
    requires forall a <- servers :: next[a].protocol == servers[a].protocol
    ensures Listens(next, places)
  {
  }

  lemma DisabledHolds(lib: Library, setup: Setup, rs: seq<Route>, r: Route, servers: Servers)
    requires Holds(lib, setup, rs, servers) && !r.enabled
    ensures Holds(lib, setup, rs + [r], servers) && Redirects(lib, setup, rs + [r]) == Redirects(lib, setup, rs)
  {
    hide RouteEntries, RouteError, AddressOf, ProtocolOf, Compatible, Listens, Certificates.WildcardCovers, AllRender,
      EntriesOf, Skips;
    OnOneMore(lib, setup, rs, r, "");
    forall address ensures On(lib, setup, rs + [r], address) == On(lib, setup, rs, address) {
      OnOneMore(lib, setup, rs, r, address);
    }
  }

  /** The default listeners, opened first. */
  method OpenDefaults(lib: Library, setup: Setup) returns (out: Outcome<Servers>)
    ensures out.Good? <==> Compatible(lib, Listeners(setup))
    ensures out.Good? ==> Holds(lib, setup, [], out.value)
  {
    hide Overlap;
    var servers: Servers := map[];
    var listeners := [(setup.http, "http"), (setup.https, "https")];
    ghost var places: seq<(string, string)> := [];
    for i := 0 to 2
      invariant places == (if i > 0 && setup.http != "" then [(setup.http, "http")] else [])
                          + (if i > 1 && setup.https != "" then [(setup.https, "https")] else [])
      invariant Listens(servers, places) && Compatible(lib, places)
      invariant forall a <- servers :: servers[a].entries == [] && servers[a].skip == []
    {
      if listeners[i].0 != "" {
        OneMorePlace(lib, servers, places, listeners[i].0, listeners[i].1);
        var ensured := EnsureServer(lib, servers, listeners[i].0, listeners[i].1);
        if ensured.Bad? {
          Part(lib, places + [listeners[i]], Listeners(setup));
          return Bad(ensured.error);
        }
        servers, places := ensured.value, places + [listeners[i]];
      }
    }
    return Good(servers);
  }

  lemma Part(lib: Library, some: seq<(string, string)>, all: seq<(string, string)>)
    requires forall p <- some :: p in all
    ensures Compatible(lib, all) ==> Compatible(lib, some)
  {
    hide Overlap;
  }

  lemma FewerRoutes(lib: Library, setup: Setup, rs: seq<Route>, n: nat)
    requires n <= |rs|
    ensures AllRender(lib, setup, rs) ==> AllRender(lib, setup, rs[..n])
    ensures Compatible(lib, Places(lib, setup, rs)) ==> Compatible(lib, Places(lib, setup, rs[..n]))
  {
    hide RouteRenders, AddressOf, ProtocolOf, Compatible, Listeners;
    PlacesMembers(lib, setup, rs);
    PlacesMembers(lib, setup, rs[..n]);
    Part(lib, Places(lib, setup, rs[..n]), Places(lib, setup, rs));
  }

  lemma HttpListens(lib: Library, setup: Setup, rs: seq<Route>, servers: Servers)
    requires Holds(lib, setup, rs, servers) && setup.http != ""
    ensures setup.http in servers && servers[setup.http].protocol == "http"
  {
    hide HoldsAt, Compatible, AllRender, AddressOf, ProtocolOf;
    PlacesMembers(lib, setup, rs);
    assert (setup.http, "http") in Listeners(setup);
  }

  /** A rendered configuration: the sorted routes on their servers, redirects last on the default HTTP server. */
  ghost predicate Rendered(lib: Library, setup: Setup, input: seq<Route>, servers: Servers) {
    var rs := StableSort(AllRoutes(setup, input));
    && AllRender(lib, setup, rs) && Compatible(lib, Places(lib, setup, rs)) && Listens(servers, Places(lib, setup, rs))
    && forall address <- servers ::
         && var plain :=
           Server(servers[address].protocol, EntriesOnServer(lib, setup, rs, address), servers[address].skip);
         && HoldsAt(lib, setup, rs, address, plain)
         && servers[address].entries == plain.entries
                                        + (if address == setup.http then Redirects(lib, setup, rs) else [])
  }

  function EntriesOnServer(lib: Library, setup: Setup, rs: seq<Route>, address: string): seq<Entry>
    requires AllRender(lib, setup, rs)
  {
    OnRenders(lib, setup, rs, address);
    EntriesOf(setup, On(lib, setup, rs, address))
  }

  method Render(lib: Library, setup: Setup, input: seq<Route>) returns (out: Outcome<Servers>)
    ensures out.Good? <==> Renders(lib, setup, input)
    ensures out.Good? ==> Rendered(lib, setup, input, out.value)
  {
    hide AddressOf, ProtocolOf, AllRender, Compatible, Listens, HoldsAt, RouteError, RouteEntries, Added, AuthTokens,
      Holds, StableSort;
    if setup.managementHost != "" {
      var tokens := CollectTokens(setup.auth);
      if !setup.auth.required || |tokens| == 0 {
        return Bad(OpenManagement);
      }
    }
    var rs := StableSort(AllRoutes(setup, input));
    var defaults := OpenDefaults(lib, setup);
    assert rs[..0] == [];
    if defaults.Bad? {
      FewerRoutes(lib, setup, rs, 0);
      return Bad(defaults.error);
    }
    var servers, redirects := defaults.value, [];
    for i := 0 to |rs|
      invariant Holds(lib, setup, rs[..i], servers) && redirects == Redirects(lib, setup, rs[..i])
    {
      assert rs[..i + 1] == rs[..i] + [rs[i]];
      if rs[i].enabled {
        var added := AddRoute(lib, setup, rs[i], servers, redirects, rs[..i]);
        if added.Bad? {
          FewerRoutes(lib, setup, rs, i + 1);
          return Bad(added.error);
        }
        servers, redirects := added.value.0, added.value.1;
      } else {
        DisabledHolds(lib, setup, rs[..i], rs[i], servers);
      }
    }
    assert rs[..|rs|] == rs;
    out := Complete(lib, setup, rs, servers, redirects);
    AllTogether(lib, setup, input, servers, out);
  }

  /** The redirects close the default HTTP server, and something must listen. */
  method Complete(
    lib: Library, setup: Setup, rs: seq<Route>, servers: Servers, redirects: seq<Entry>)
    returns (out: Outcome<Servers>)
    requires Holds(lib, setup, rs, servers) && redirects == Redirects(lib, setup, rs)
    ensures out == if servers.Keys == {} then Bad(NoListener) else Good(WithRedirects(setup, servers, redirects))
  {
    hide AddressOf, ProtocolOf, AllRender, Compatible, Listens, HoldsAt, RouteError, RouteEntries, Holds;
    var changed := servers;
    if |redirects| > 0 {
      NoRedirectsWithoutHttp(lib, setup, rs);
      HttpListens(lib, setup, rs, servers);
      var server := changed[setup.http];
      changed := changed[setup.http := server.(entries := server.entries + redirects)];
    } else {
      SameServers(setup, servers);
    }
    assert changed == WithRedirects(setup, servers, redirects);
    if changed.Keys == {} {
      return Bad(NoListener);
    }
    return Good(changed);
  }

  function WithRedirects(setup: Setup, servers: Servers, redirects: seq<Entry>): Servers {
    map a <- servers :: if a == setup.http then servers[a].(entries := servers[a].entries + redirects) else servers[a]
  }

  lemma SameServers(setup: Setup, servers: Servers)
    ensures WithRedirects(setup, servers, []) == servers
  {
    assert forall s: seq<Entry> :: s + [] == s;
  }

  lemma {:induction false} NoRedirectsWithoutHttp(lib: Library, setup: Setup, rs: seq<Route>)
    ensures setup.http == "" ==> Redirects(lib, setup, rs) == []
  {
    hide ProtocolOf, RedirectEntry;
    if rs != [] {
      NoRedirectsWithoutHttp(lib, setup, rs[..|rs| - 1]);
    }
  }

  lemma SomethingListens(servers: Servers, places: seq<(string, string)>)
    requires Listens(servers, places)
    ensures servers.Keys == {} <==> places == []
  {
    if places != [] {
      var p := places[0];
      assert p in places && p == (p.0, p.1);
    }
    if servers.Keys != {} {
      var a :| a in servers;
      assert (a, servers[a].protocol) in places;
    }
  }

  lemma AllTogether(lib: Library, setup: Setup, input: seq<Route>, servers: Servers, out: Outcome<Servers>)
    requires var rs := StableSort(AllRoutes(setup, input));
             && ManagementGuarded(setup) && Holds(lib, setup, rs, servers)
             && out == if servers.Keys == {} then Bad(NoListener)
                       else Good(WithRedirects(setup, servers, Redirects(lib, setup, rs)))
    ensures out.Good? <==> Renders(lib, setup, input)
    ensures out.Good? ==> Rendered(lib, setup, input, out.value)
  {
    hide AddressOf, ProtocolOf, AllRender, Compatible, RouteError, RouteEntries, StableSort, Redirects, EntriesOf,
      Skips, On, Places, ManagementGuarded;
    var rs := StableSort(AllRoutes(setup, input));
    var places := Places(lib, setup, rs);
    SomethingListens(servers, places);
    assert out.Good? ==> out.value.Keys == servers.Keys;
  }
}
