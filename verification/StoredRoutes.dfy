/** What the store accepts can be served: its compiled routes are usable, and the renderer refuses none of them for a
    reason of their own. */
module StoredRoutes {
  import opened Text
  import opened Routing
  import opened RoutingFacts
  import opened NormalForms
  import opened HostNames
  import opened CaddyMatch
  import opened CaddyRoute

  predicate Port(port: int) {
    1 <= port <= 65535
  }

  predicate UsableUpstream(u: Upstream) {
    && u.url.Url? && u.url.scheme in ["http", "https"] && u.url.hostname != "" && u.url.port.Some?
    && Port(u.url.port.value)
  }

  predicate UsablePath(path: string) {
    path == "" || (path[0] == '/' && '*' !in path)
  }

  /** A request method: capital letters, digits and the marks that section 5.6.2 of RFC 9110 allows. */
  predicate UsableMethod(m: string) {
    m != "" && forall i :: 0 <= i < |m| ==> 'A' <= m[i] <= 'Z' || '0' <= m[i] <= '9' || m[i] in "!#$%&'*+-.^_`|~"
  }

  /** A host name, a port, a path without stars and at least one upstream with all its parts. */
  predicate Usable(c: Route) {
    && c.host != "" && |c.host| <= 255 && NameShape(if "*." <= c.host then c.host[2..] else c.host) && '.' in c.host
    && Port(c.listenerPort) && c.listenerProtocol in ["http", "https"] && UsablePath(c.pathPrefix)
    && c.upstreams != [] && forall u <- c.upstreams :: UsableUpstream(u)
  }

  /** Lists that the renderer can take as they are: method names, paths without stars and ranges. */
  predicate UsableLists(net: Net, s: Security) {
    && s.maxBody >= 0 && (forall m <- s.deniedMethods :: UsableMethod(m))
    && (forall d <- s.deniedPrefixes :: d != "" && UsablePath(d))
    && (forall x <- s.allowed :: net.isRange(x)) && forall x <- s.blocked :: net.isRange(x)
  }

  lemma UpperTrimmed(v: string)
    ensures Upper(TrimSpace(Upper(TrimSpace(v)))) == Upper(TrimSpace(v))
  {
    var t := TrimSpace(v);
    TrimSpaceShape(v);
    TrimSpaceFixpoint(Upper(t));
    if t != "" {
      assert Upper(t)[0] == UpperChar(t[0]) && Upper(t)[|t| - 1] == UpperChar(t[|t| - 1]);
    }
    assert Upper(Upper(t)) == Upper(t);
  }

  lemma StarsStay(d: string)
    requires '*' !in TrimSpace(d)
    ensures '*' !in d
  {
    hide TrimSpace;
    var i, j := TrimSpaceMeaning(d);
    forall k | 0 <= k < |d| ensures d[k] != '*' {
      if i <= k < j {
        assert d[i..j][k - i] == d[k] && d[k] in d[i..j];
      }
    }
  }

  lemma TokenIsUsable(m: string)
    requires ValidToken(m)
    ensures UsableMethod(m)
  {
    forall i | 0 <= i < |m| ensures 'A' <= m[i] <= 'Z' || '0' <= m[i] <= '9' || m[i] in "!#$%&'*+-.^_`|~" {
      assert m[i] in m;
      MarksOfTokens(m[i]);
    }
  }

  lemma MarksOfTokens(c: char)
    requires c in {'!', '#', '$', '%', '&', '\'', '*', '+', '-', '.', '^', '_', '`', '|', '~'}
             || 'A' <= c <= 'Z' || '0' <= c <= '9'
    ensures 'A' <= c <= 'Z' || '0' <= c <= '9' || c in "!#$%&'*+-.^_`|~"
  {
    var marks := "!#$%&'*+-.^_`|~";
    assert marks[0] == '!' && marks[1] == '#' && marks[2] == '$' && marks[3] == '%' && marks[4] == '&';
    assert marks[5] == '\'' && marks[6] == '*' && marks[7] == '+' && marks[8] == '-' && marks[9] == '.';
    assert marks[10] == '^' && marks[11] == '_' && marks[12] == '`' && marks[13] == '|' && marks[14] == '~';
  }

  lemma PrefixIsUsable(v: string, d: string)
    requires TrimSpace(v) != "" && d == (if TrimSpace(v) == "/" then "/" else NormalizePrefix(v))
    requires TrimSpace(d) != "" && ValidPathPrefix(TrimSpace(d))
    ensures d != "" && UsablePath(d)
  {
    var t := TrimSpace(v);
    TrimSpaceShape(v);
    TrimSlashesShape(t);
    StarsStay(d);
    if t != "/" {
      assert d == "" ==> TrimSpace(d) == "";
      assert d[0] == t[0] && !IsSpace(d[0]);
      assert TrimLeft(d) == d;
      TrimRightShape(d);
    }
  }

  /** Security lists that were normalized and found valid are usable as they are. */
  lemma NormalListsAreUsable(net: Net, given: Security)
    requires ValidSecurity(net, NormalizeSecurity(given))
    ensures UsableLists(net, NormalizeSecurity(given))
  {
    hide TrimSpace, Upper, NormalizePrefix, ValidToken, ValidPathPrefix, UsableMethod, UsablePath, NormalizeSecurity;
    var s := NormalizeSecurity(given);
    SecurityIsTaken(given);
    forall m | m in s.deniedMethods ensures UsableMethod(m) {
      var v :| v in given.deniedMethods && TrimSpace(v) != "" && Upper(TrimSpace(v)) == m;
      UpperTrimmed(v);
      TokenIsUsable(m);
    }
    forall d | d in s.deniedPrefixes ensures d != "" && UsablePath(d) {
      var v :| v in given.deniedPrefixes && TrimSpace(v) != ""
               && d == if TrimSpace(v) == "/" then "/" else NormalizePrefix(v);
      PrefixIsUsable(v, d);
    }
    forall x | x in s.allowed ensures net.isRange(x) {
      var v :| v in given.allowed && TrimSpace(v) == x;
      TrimSpaceIdempotent(v);
    }
    forall x | x in s.blocked ensures net.isRange(x) {
      var v :| v in given.blocked && TrimSpace(v) == x;
      TrimSpaceIdempotent(v);
    }
  }

  lemma CompiledSecurity(r: Rule, l: Listener, p: Pool)
    ensures CompileRule(r, l, p).security == NormalizeSecurity(r.security)
  {
    hide NormalizeSecurity, NormalizePrefix, NormalizeName, Lower, TrimSpace;
  }

  lemma CompiledUpstreams(net: Net, r: Rule, l: Listener, p: Pool)
    requires GoodRule(net, r) && GoodPool(net, p)
    ensures var c := CompileRule(r, l, p);
            c.upstreams != [] && forall u <- c.upstreams :: UsableUpstream(u) && u.url.scheme == r.backendProtocol
  {
    hide ValidSecurity, NormalizeSecurity, NormalizePrefix, NormalizeName, TrimSpace, ValidPathPrefix, NormalizePool,
      Lower, IPLiteral;
    var c := CompileRule(r, l, p);
    assert |c.upstreams| == |p.targets|;
    forall u | u in c.upstreams ensures UsableUpstream(u) && u.url.scheme == r.backendProtocol {
      var i :| 0 <= i < |p.targets| && u == CompileTarget(r, p, p.targets[i]);
      assert p.targets[i] in p.targets;
    }
  }

  /** A pool keeps its targets apart, but not the upstreams of a rule: two of them are one if and only if one target
      names the port that the other one takes from the rule. */
  lemma UpstreamsCoincide(net: Net, r: Rule, l: Listener, p: Pool, i: nat, j: nat)
    requires GoodRule(net, r) && GoodPool(net, p) && i < j < |p.targets|
    ensures var us := CompileRule(r, l, p).upstreams;
            && |us| == |p.targets| && us[i].url.Url? && us[j].url.Url?
            && (Lower(us[i].url.hostname) == Lower(us[j].url.hostname) && us[i].url.port == us[j].url.port <==>
                && Lower(p.targets[i].address) == Lower(p.targets[j].address)
                && ((p.targets[i].port == 0 && p.targets[j].port == r.backendPort)
                    || (p.targets[j].port == 0 && p.targets[i].port == r.backendPort)))
  {
    hide ValidSecurity, NormalizeSecurity, NormalizePrefix, NormalizeName, TrimSpace, ValidPathPrefix, NormalizePool,
      Lower, ValidAddress;
    assert p.targets[i] in p.targets && p.targets[j] in p.targets;
  }

  lemma CompiledPath(net: Net, r: Rule, l: Listener, p: Pool)
    requires GoodRule(net, r)
    ensures UsablePath(CompileRule(r, l, p).pathPrefix)
  {
    hide ValidSecurity, NormalizeSecurity, NormalizeName, Lower;
    if r.pathPrefix != "" {
      assert TrimLeft(r.pathPrefix) == r.pathPrefix;
      TrimRightShape(r.pathPrefix);
      TrimSlashesShape(TrimSpace(r.pathPrefix));
    }
  }

  lemma CompiledHost(r: Rule, l: Listener, p: Pool)
    requires GoodListener(l)
    ensures var c := CompileRule(r, l, p);
            c.host == l.hostname && c.listenerPort == l.port && c.listenerProtocol == l.protocol
            && Port(l.port) && l.protocol in ["http", "https"]
            && |l.hostname| <= 255 && NameShape(if "*." <= l.hostname then l.hostname[2..] else l.hostname)
            && '.' in l.hostname
  {
    hide NormalizeSecurity, NormalizePrefix, NormalizeName, TrimSpace, Lower, NameShape, ValidHost;
    ValidHostIsNormal(l.hostname);
    HostExactly(l.hostname);
    assert "*." <= l.hostname ==> l.hostname == "*." + l.hostname[2..];
  }

  /** Every route of a well-formed store is usable. */
  lemma StoredRoutesAreUsable(net: Net, res: Resources, r: Rule)
    requires WellFormed(net, res) && r in res.rules
    ensures Resolves(res, r) && Usable(CompileIn(res, r)) && UsableLists(net, CompileIn(res, r).security)
  {
    hide CompileRule, GoodListener, GoodPool, ValidRule, UsableUpstream, NameShape, UsableLists, ValidSecurity,
      NormalizeSecurity;
    ListenerOfMember(res.listeners, r.listenerId);
    PoolOfMember(res.pools, r.poolId);
    var l, p := ListenerOf(res.listeners, r.listenerId).value, PoolOf(res.pools, r.poolId).value;
    CompiledHost(r, l, p);
    CompiledSecurity(r, l, p);
    NormalListsAreUsable(net, r.security);
    CompiledPath(net, r, l, p);
    CompiledUpstreams(net, r, l, p);
  }

  /** The renderer refuses a stored route only if it is internal and the configuration names no internal ranges, or if
      the configured body limit applies to it and is negative. */
  lemma StoredRoutesRender(net: Net, res: Resources, r: Rule, policy: Policy, ranges: seq<string>)
    requires WellFormed(net, res) && r in res.rules
    ensures Resolves(res, r)
    ensures var c := CompileIn(res, r);
            RouteError(c, policy, ranges).None? <==>
            && (c.exposure == "internal" ==> ranges != [])
            && (policy.enabled && !r.security.disabled && r.security.maxBody == 0 ==> policy.maxBody >= 0)
  {
    hide CompileRule, GoodListener, GoodPool, RouteError, UsableUpstream, ValidPathPrefix, NormalizeSecurity, Lower,
      Dialable, BodyLimit;
    ListenerOfMember(res.listeners, r.listenerId);
    PoolOfMember(res.pools, r.poolId);
    var l, p := ListenerOf(res.listeners, r.listenerId).value, PoolOf(res.pools, r.poolId).value;
    var c := CompileRule(r, l, p);
    CompiledUpstreams(net, r, l, p);
    CompiledLimit(r, l, p);
    RenderableExactly(c, policy, ranges);
    OneSchemeDials(c, r.backendProtocol);
    LimitOfStored(c, policy);
  }

  /** So the meaning of rendered routes applies to every stored route, as soon as the configured denied prefixes have no
      stars. */
  lemma StoredRoutesAreStarless(net: Net, res: Resources, r: Rule, policy: Policy)
    requires WellFormed(net, res) && r in res.rules
    ensures Resolves(res, r)
    ensures Starless(CompileIn(res, r), policy) <==> forall d <- policy.deniedPrefixes :: '*' !in d
  {
    hide WellFormed, CompileIn, Resolves, UsableUpstream, NameShape, UsableMethod;
    StoredRoutesAreUsable(net, res, r);
  }

  lemma CompiledLimit(r: Rule, l: Listener, p: Pool)
    ensures var c := CompileRule(r, l, p);
            c.security.maxBody == r.security.maxBody && c.security.disabled == r.security.disabled
  {
    hide NormalizePrefixes, NormalizeMethods, NormalizeStrings, NormalizePrefix, NormalizeName, Lower, TrimSpace;
  }

  lemma OneSchemeDials(c: Route, scheme: string)
    requires scheme in ["http", "https"]
    requires forall u <- c.upstreams :: UsableUpstream(u) && u.url.scheme == scheme
    ensures forall u <- c.upstreams :: Dialable(u) && Lower(u.url.scheme) == scheme
  {
    WebProtocolsNormal();
  }

  lemma LimitOfStored(c: Route, policy: Policy)
    requires c.security.maxBody >= 0
    ensures (exists limit :: BodyLimit(c, policy, limit) && limit >= 0) <==>
            (policy.enabled && !c.security.disabled && c.security.maxBody == 0 ==> policy.maxBody >= 0)
  {
    assert BodyLimit(c, policy, MaxBody(c, policy));
  }
}
