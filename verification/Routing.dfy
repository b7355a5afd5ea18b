/** Routing resources: listeners, backend pools and rules, their normal forms and validity,
    and the compiler from rules to routes. */
module Routing {
  import opened Text

  const RESOURCE_SET_VERSION := 2

  /** The parsers of the network library, which this model does not look into. */
  datatype Net = Net(isIP: string -> bool, isRange: string -> bool)

  datatype Listener = Listener(
    id: string, name: string, hostname: string, port: int, protocol: string, source: string, updated: int)

  datatype Target = Target(name: string, address: string, port: int, healthPath: string)

  datatype Pool = Pool(id: string, name: string, targets: seq<Target>, source: string, updated: int)

  datatype Security = Security(
    disabled: bool, maxBody: int, deniedMethods: seq<string>, deniedPrefixes: seq<string>,
    allowed: seq<string>, blocked: seq<string>)

  datatype Rule = Rule(
    id: string, name: string, listenerId: string, poolId: string, backendPort: int, backendProtocol: string,
    pathPrefix: string, healthPath: string, exposure: string, enabled: bool, webSocket: bool,
    headers: map<string, string>, security: Security, source: string, lastError: string, updated: int)

  /** A URL as the library splits it; an absent port is None. */
  datatype Url = Url(scheme: string, hostname: string, port: Option<nat>) | Malformed

  datatype Upstream = Upstream(name: string, url: Url, healthPath: string)

  datatype Route = Route(
    id: string, name: string, host: string, listenerId: string, listenerName: string, listenerPort: int,
    listenerProtocol: string, poolId: string, poolName: string, pathPrefix: string, exposure: string,
    enabled: bool, isPublic: bool, https: bool, webSocket: bool, isProtected: bool, source: string,
    headers: map<string, string>, security: Security, upstreams: seq<Upstream>, lastError: string, updated: int)

  datatype Resources = Resources(version: int, listeners: seq<Listener>, pools: seq<Pool>, rules: seq<Rule>)

  datatype Snapshot = Snapshot(resources: Resources, routes: seq<Route>, revision: nat)

  // ---------- Names, prefixes and lists ----------

  predicate ValidLabel(part: string) {
    && 0 < |part| <= 63 && part[0] != '-' && part[|part| - 1] != '-'
    && forall c <- part :: 'a' <= c <= 'z' || '0' <= c <= '9' || c == '-'
  }

  /** A fully qualified lower-case DNS name with at most one left-most wildcard. */
  predicate ValidHost(host: string) {
    var name := if "*." <= host then host[2..] else host;
    var labels := Split(name, '.');
    && '*' !in name && '/' !in name && ':' !in name && |name| <= 253
    && |labels| >= 2 && forall part <- labels :: ValidLabel(part)
  }

  predicate ValidToken(token: string) {
    token != "" && forall c <- token ::
      'A' <= c <= 'Z' || '0' <= c <= '9'
      || c in {'!', '#', '$', '%', '&', '\'', '*', '+', '-', '.', '^', '_', '`', '|', '~'}
  }

  function Unique(values: seq<string>): seq<string> {
    if values == [] then []
    else
      var first, last := Unique(values[..|values| - 1]), values[|values| - 1];
      if last in first then first else first + [last]
  }

  function TrimmedNonEmpty(values: seq<string>): seq<string> {
    if values == [] then []
    else
      var rest, first := TrimmedNonEmpty(values[1..]), TrimSpace(values[0]);
      if first == "" then rest else [first] + rest
  }

  function NormalizeStrings(values: seq<string>): seq<string> {
    Unique(TrimmedNonEmpty(values))
  }

  function NormalizeMethods(methods: seq<string>): seq<string> {
    var trimmed := NormalizeStrings(methods);
    Unique(seq(|trimmed|, i requires 0 <= i < |trimmed| => Upper(trimmed[i])))
  }

  function NormalizePrefixes(prefixes: seq<string>): seq<string> {
    var trimmed := NormalizeStrings(prefixes);
    Unique(seq(|trimmed|, i requires 0 <= i < |trimmed| =>
             if trimmed[i] == "/" then "/" else TrimSlashes(trimmed[i])))
  }

  function NormalizeSecurity(s: Security): Security {
    s.(deniedMethods := NormalizeMethods(s.deniedMethods), deniedPrefixes := NormalizePrefixes(s.deniedPrefixes),
    allowed := NormalizeStrings(s.allowed), blocked := NormalizeStrings(s.blocked))
  }

  predicate ValidPathPrefix(prefix: string) {
    prefix != "" ==> "/" <= prefix && '*' !in prefix
  }

  predicate ValidSecurity(net: Net, s: Security) {
    && s.maxBody >= 0
    && (forall m <- s.deniedMethods :: ValidToken(Upper(TrimSpace(m))))
    && (forall p <- s.deniedPrefixes :: TrimSpace(p) != "" && ValidPathPrefix(TrimSpace(p)))
    && (forall r <- s.allowed :: net.isRange(TrimSpace(r)))
    && (forall r <- s.blocked :: net.isRange(TrimSpace(r)))
  }

  function DefaultPort(protocol: string): nat {
    if protocol == "https" then 443 else 80
  }

  function SourceOr(value: string, fallback: string): string {
    if TrimSpace(value) == "" then fallback else value
  }

  // ---------- Listeners ----------

  function NormalizeListener(l: Listener): Listener {
    var protocol := Lower(TrimSpace(l.protocol));
    var protocol := if protocol == "" then "https" else protocol;
    l.(name := TrimSpace(l.name), hostname := NormalizeName(l.hostname), protocol := protocol,
    source := Lower(TrimSpace(l.source)), port := if l.port == 0 then DefaultPort(protocol) else l.port)
  }

  /** What adding fills in: a generated id, the hostname as name, the default source. */
  function CompleteListener(l: Listener, freshId: string, now: int): Listener {
    var n := NormalizeListener(l);
    n.(id := if n.id == "" then freshId else n.id, name := if n.name == "" then n.hostname else n.name,
    source := if n.source == "" then "explicit" else n.source, updated := now)
  }

  predicate ValidListener(l: Listener) {
    && l.name != "" && ValidHost(l.hostname)
    && (l.protocol == "http" || l.protocol == "https") && 1 <= l.port <= 65535
  }

  predicate SameListener(a: Listener, b: Listener) {
    a.hostname == b.hostname && a.port == b.port && a.protocol == b.protocol
  }

  // ---------- Backend pools ----------

  function TrimBrackets(s: string): string {
    if s != [] && s[0] in "[]" then TrimBrackets(s[1..])
    else if s != [] && s[|s| - 1] in "[]" then TrimBrackets(s[..|s| - 1])
    else s
  }

  function NormalizeTarget(t: Target): Target {
    t.(name := TrimSpace(t.name), address := TrimBrackets(TrimSpace(t.address)), healthPath := TrimSpace(t.healthPath))
  }

  function NormalizePool(p: Pool): Pool {
    p.(name := TrimSpace(p.name), source := Lower(TrimSpace(p.source)),
    targets := seq(|p.targets|, i requires 0 <= i < |p.targets| => NormalizeTarget(p.targets[i])))
  }

  function CompletePool(p: Pool, freshId: string, now: int): Pool {
    var n := NormalizePool(p);
    n.(id := if n.id == "" then freshId else n.id, source := if n.source == "" then "explicit" else n.source,
    updated := now)
  }

  predicate NameCharacter(c: char) {
    'a' <= c <= 'z' || 'A' <= c <= 'Z' || '0' <= c <= '9' || c == '-' || c == '_'
  }

  /** Address literals consist of hexadecimal digits, dots and colons; the library decides which are well formed. */
  predicate IPLiteral(net: Net, address: string) {
    (forall c <- address :: c == '.' || c == ':' || NameCharacter(c)) && net.isIP(address)
  }

  predicate ValidAddress(net: Net, address: string) {
    && address != "" && (forall c <- " /\t\r\n" :: c !in address)
    && (IPLiteral(net, address) ||
        (':' !in address && forall part <- Split(address, '.') :: part != "" && forall c <- part :: NameCharacter(c)))
  }

  predicate ValidPool(net: Net, p: Pool) {
    && p.name != "" && p.targets != []
    && (forall t <- p.targets :: ValidAddress(net, t.address) && 0 <= t.port <= 65535)
    && forall i, j :: 0 <= i < j < |p.targets| ==>
                        !(Lower(p.targets[i].address) == Lower(p.targets[j].address)
                          && p.targets[i].port == p.targets[j].port)
  }

  // ---------- Routing rules ----------

  function NormalizeRule(r: Rule): Rule {
    var protocol, exposure := Lower(TrimSpace(r.backendProtocol)), Lower(TrimSpace(r.exposure));
    r.(name := TrimSpace(r.name), listenerId := TrimSpace(r.listenerId), poolId := TrimSpace(r.poolId),
    backendProtocol := if protocol == "" then "http" else protocol,
    pathPrefix := NormalizePrefix(r.pathPrefix), healthPath := TrimSpace(r.healthPath),
    exposure := if exposure == "" then "public" else exposure,
    source := Lower(TrimSpace(r.source)), security := NormalizeSecurity(r.security))
  }

  function CompleteRule(r: Rule, freshId: string, now: int): Rule {
    var n := NormalizeRule(r);
    var id := if n.id == "" then freshId else n.id;
    n.(id := id, name := if n.name == "" then id else n.name, source := if n.source == "" then "explicit" else n.source,
    updated := now)
  }

  /** The part of rule validity that does not look at other resources. */
  predicate ValidRule(net: Net, r: Rule) {
    && r.name != "" && r.listenerId != "" && r.poolId != ""
    && 1 <= r.backendPort <= 65535 && (r.backendProtocol == "http" || r.backendProtocol == "https")
    && ValidPathPrefix(r.pathPrefix) && ValidSecurity(net, r.security)
  }

  function ListenerOf(listeners: seq<Listener>, id: string): Option<Listener> {
    if listeners == [] then None
    else if listeners[0].id == id then Some(listeners[0])
    else ListenerOf(listeners[1..], id)
  }

  function PoolOf(pools: seq<Pool>, id: string): Option<Pool> {
    if pools == [] then None
    else if pools[0].id == id then Some(pools[0])
    else PoolOf(pools[1..], id)
  }

  predicate Resolves(res: Resources, r: Rule) {
    ListenerOf(res.listeners, r.listenerId).Some? && PoolOf(res.pools, r.poolId).Some?
  }

  // ---------- Compiled routes ----------

  function NormalizeRoute(r: Route): Route {
    var source := if r.source == "" then "explicit" else r.source;
    var given := Lower(TrimSpace(r.exposure));
    var exposure :=
      if given == "internal" || given == "protected" then given
      else if given == "" && !r.isPublic && source != "explicit" then "internal"
      else "public";
    r.(host := NormalizeName(r.host), pathPrefix := NormalizePrefix(r.pathPrefix),
    security := NormalizeSecurity(r.security), source := source, exposure := exposure,
    isPublic := exposure != "internal", isProtected := exposure == "protected")
  }

  predicate ValidUpstream(u: Upstream) {
    && u.url.Url? && (u.url.hostname != "" || u.url.port.Some?)
    && (Lower(u.url.scheme) == "http" || Lower(u.url.scheme) == "https")
  }

  predicate ValidRoute(net: Net, r: Route) {
    && ValidHost(NormalizeName(r.host)) && r.upstreams != [] && ValidPathPrefix(TrimSpace(r.pathPrefix))
    && (forall u <- r.upstreams :: ValidUpstream(u)) && ValidSecurity(net, r.security)
  }

  function CompileTarget(r: Rule, p: Pool, t: Target): Upstream {
    Upstream(
      SourceOr(t.name, p.name),
      Url(r.backendProtocol, t.address, Some(PortOf(if t.port != 0 then t.port else r.backendPort))),
      if t.healthPath != "" then t.healthPath else r.healthPath)
  }

  function PortOf(port: int): nat {
    if port < 0 then 0 else port
  }

  function CompileRule(r: Rule, l: Listener, p: Pool): Route {
    NormalizeRoute(Route(
                     r.id, r.name, l.hostname, l.id, l.name, l.port, l.protocol, p.id, p.name, r.pathPrefix, r.exposure,
                     r.enabled, false, l.protocol == "https", r.webSocket, false,
                     SourceOr(r.source, "explicit"), r.headers, r.security,
                     seq(|p.targets|, i requires 0 <= i < |p.targets| => CompileTarget(r, p, p.targets[i])),
                     r.lastError, r.updated))
  }

  function CompileIn(res: Resources, r: Rule): Route
    requires Resolves(res, r)
  {
    CompileRule(r, ListenerOf(res.listeners, r.listenerId).value, PoolOf(res.pools, r.poolId).value)
  }

  predicate Compiles(net: Net, res: Resources, r: Rule) {
    Resolves(res, r) && ValidRoute(net, CompileIn(res, r))
  }

  predicate Compilable(net: Net, res: Resources) {
    forall r <- res.rules :: Compiles(net, res, r)
  }

  // ---------- Well-formed resources ----------

  predicate UniqueListeners(ls: seq<Listener>) {
    forall i, j :: 0 <= i < j < |ls| ==> ls[i].id != ls[j].id && !SameListener(ls[i], ls[j])
  }

  predicate UniquePools(ps: seq<Pool>) {
    forall i, j :: 0 <= i < j < |ps| ==> ps[i].id != ps[j].id && Lower(ps[i].name) != Lower(ps[j].name)
  }

  predicate SamePlace(a: Rule, b: Rule) {
    a.listenerId == b.listenerId && a.pathPrefix == b.pathPrefix
  }

  predicate UniqueRules(rs: seq<Rule>) {
    forall i, j :: 0 <= i < j < |rs| ==> rs[i].id != rs[j].id && !SamePlace(rs[i], rs[j])
  }

  predicate GoodListener(l: Listener) {
    l.id != "" && ValidListener(l) && NormalizeListener(l) == l
  }

  predicate GoodPool(net: Net, p: Pool) {
    p.id != "" && ValidPool(net, p) && NormalizePool(p) == p
  }

  /** A rule whose security lists also survive the normalization that compiling repeats. */
  predicate GoodRule(net: Net, r: Rule) {
    r.id != "" && ValidRule(net, r) && ValidSecurity(net, NormalizeSecurity(r.security))
  }

  predicate WellFormed(net: Net, res: Resources) {
    && UniqueListeners(res.listeners) && UniquePools(res.pools) && UniqueRules(res.rules)
    && (forall l <- res.listeners :: GoodListener(l))
    && (forall p <- res.pools :: GoodPool(net, p))
    && (forall r <- res.rules :: GoodRule(net, r) && Resolves(res, r))
  }
}
