/** One route compiled into first-match entries: the security rejections, the token check and the proxy. */
module CaddyRoute {
  import opened Text
  import opened Routing
  import opened RoutingFacts
  import opened CaddyMatch
  import Protocol

  /** The security policy that all routes share. */
  datatype Policy = Policy(
    enabled: bool, maxBody: int, blocked: seq<string>, allowed: seq<string>,
    deniedMethods: seq<string>, deniedPrefixes: seq<string>)

  datatype Action =
    | Reject(status: int)
    | Forward(routeId: string, dials: seq<Url>, tls: bool, strip: seq<string>, maxBody: int)
    | Redirect(port: string)

  datatype Entry = Entry(matcher: Match, action: Action)

  datatype Failure =
    | EmptyInternalRanges
    | BadUpstream
    | MixedSchemes
    | NegativeBody
    | NoListener
    | ListenerConflict
    | OpenManagement
    | BadAddress

  datatype Outcome<+T> = Good(value: T) | Bad(error: Failure)

  // ---------- Unique lists ----------

  function AppendUnique(base: seq<string>, values: seq<string>): seq<string> {
    if values == [] then base
    else
      var before, last := AppendUnique(base, values[..|values| - 1]), values[|values| - 1];
      if last in before then before else before + [last]
  }

  lemma {:induction false} AppendedMembers(base: seq<string>, values: seq<string>)
    ensures forall x :: x in AppendUnique(base, values) <==> x in base || x in values
  {
    if values != [] {
      AppendedMembers(base, values[..|values| - 1]);
      assert values == values[..|values| - 1] + [values[|values| - 1]];
    }
  }

  method AppendEachUnique(base: seq<string>, values: seq<string>) returns (output: seq<string>)
    ensures output == AppendUnique(base, values)
  {
    output := base;
    var seen := set value <- base;
    for i := 0 to |values|
      invariant output == AppendUnique(base, values[..i])
      invariant forall x :: x in seen <==> x in output
    {
      assert values[..i + 1][..i] == values[..i];
      if values[i] !in seen {
        seen := seen + {values[i]};
        output := output + [values[i]];
      }
    }
    assert values[..|values|] == values;
  }

  // ---------- Denied paths ----------

  function RestrictedPaths(routePrefix: string, denied: seq<string>): seq<string> {
    if denied == [] then []
    else
      var before := RestrictedPaths(routePrefix, denied[..|denied| - 1]);
      match Intersect(routePrefix, denied[|denied| - 1])
      case None => before
      case Some(common) => AppendUnique(before, PathMatchers(common))
  }

  method RestrictPaths(routePrefix: string, denied: seq<string>) returns (output: seq<string>)
    ensures output == RestrictedPaths(routePrefix, denied)
  {
    output := [];
    for i := 0 to |denied|
      invariant output == RestrictedPaths(routePrefix, denied[..i])
    {
      assert denied[..i + 1][..i] == denied[..i];
      var common := Intersect(routePrefix, denied[i]);
      if common.Some? {
        output := AppendEachUnique(output, PathMatchers(common.value));
      }
    }
    assert denied[..|denied|] == denied;
  }

  /** What a denied prefix rejects: the paths under its common part with the route's prefix, as rendered. */
  predicate DeniedBy(routePrefix: string, denied: string, path: string) {
    var common := Intersect(routePrefix, denied);
    common.Some? && Under(NormalizePrefix(common.value), path)
  }

  predicate DeniedPath(routePrefix: string, denied: seq<string>, path: string) {
    exists d <- denied :: DeniedBy(routePrefix, d, path)
  }

  lemma CommonPart(routePrefix: string, denied: string, path: string)
    requires '*' !in routePrefix && '*' !in denied
    ensures DeniedBy(routePrefix, denied, path) <==>
            Intersect(routePrefix, denied).Some? && AnyPath(PathMatchers(Intersect(routePrefix, denied).value), path)
  {
    hide Under, PathMatches;
    var common := Intersect(routePrefix, denied);
    if common.Some? {
      NormalizedIsPart(routePrefix);
      NormalizedIsPart(denied);
      MatchersAcceptPrefix(common.value, path);
    }
  }

  /** The restricted patterns accept exactly what the denied prefixes reject. */
  lemma {:induction false} RestrictedMeaning(routePrefix: string, denied: seq<string>, path: string)
    requires '*' !in routePrefix && forall d <- denied :: '*' !in d
    ensures AnyPath(RestrictedPaths(routePrefix, denied), path) <==> DeniedPath(routePrefix, denied, path)
  {
    hide Under, PathMatches, DeniedBy, Intersect, PathMatchers, NormalizePrefix, AnyPath;
    if denied == [] {
      NoPath(path);
    } else {
      var n := |denied| - 1;
      var before := RestrictedPaths(routePrefix, denied[..n]);
      RestrictedMeaning(routePrefix, denied[..n], path);
      assert denied == denied[..n] + [denied[n]];
      CommonPart(routePrefix, denied[n], path);
      var common := Intersect(routePrefix, denied[n]);
      if common.Some? {
        AppendedMembers(before, PathMatchers(common.value));
        EitherPath(before, PathMatchers(common.value), RestrictedPaths(routePrefix, denied), path);
      }
    }
  }

  /** Rendering leaves the common part of two rooted prefixes alone. */
  predicate Exact(routePrefix: string, denied: string) {
    Rooted(NormalizePrefix(routePrefix)) && Rooted(NormalizePrefix(denied)) &&
    (Intersect(routePrefix, denied).Some? ==> StablePrefix(Intersect(routePrefix, denied).value))
  }

  lemma ExactlyDenied(routePrefix: string, denied: string, path: string)
    requires Exact(routePrefix, denied)
    ensures DeniedBy(routePrefix, denied, path) <==>
            Under(NormalizePrefix(routePrefix), path) && Under(NormalizePrefix(denied), path)
  {
    hide Under;
    IntersectMeaning(routePrefix, denied, path);
  }

  lemma NoPath(path: string)
    ensures !AnyPath([], path)
  {
  }

  lemma EitherPath(a: seq<string>, b: seq<string>, both: seq<string>, path: string)
    requires forall x :: x in both <==> x in a || x in b
    ensures AnyPath(both, path) <==> AnyPath(a, path) || AnyPath(b, path)
  {
  }

  lemma EitherRange(net: Ranges, a: seq<string>, b: seq<string>, source: string)
    ensures AnyRange(net, AppendUnique(a, b), source) <==> AnyRange(net, a, source) || AnyRange(net, b, source)
  {
    AppendedMembers(a, b);
  }

  // ---------- Security entries ----------

  function RouteMatch(r: Route): Match {
    Match(r.host, if r.listenerPort > 0 then Some(r.listenerPort) else None,
          if r.listenerProtocol != "" then Some(r.listenerProtocol) else None,
          if r.pathPrefix != "" then Some(PathMatchers(r.pathPrefix)) else None, None, None, None, None)
  }

  predicate Secured(r: Route, policy: Policy) {
    policy.enabled && !r.security.disabled
  }

  function MaxBody(r: Route, policy: Policy): int {
    if !Secured(r, policy) then 0 else if r.security.maxBody != 0 then r.security.maxBody else policy.maxBody
  }

  method RenderSecurityEntries(r: Route, policy: Policy) returns (out: Outcome<(seq<Entry>, int)>)
    ensures out == if MaxBody(r, policy) < 0 then Bad(NegativeBody)
                   else Good((SecurityEntries(r, policy), MaxBody(r, policy)))
  {
    if !policy.enabled || r.security.disabled {
      return Good(([], 0));
    }
    var maxBody := policy.maxBody;
    if r.security.maxBody != 0 {
      maxBody := r.security.maxBody;
    }
    if maxBody < 0 {
      return Bad(NegativeBody);
    }
    hide AppendUnique, RestrictedPaths, RouteMatch;
    var base := RouteMatch(r);
    var entries := [];
    var blocked := AppendEachUnique(policy.blocked, r.security.blocked);
    if |blocked| > 0 {
      entries := entries + [Entry(base.(within := Some(blocked)), Reject(403))];
    }
    assert entries == Single(|blocked| > 0, base.(within := Some(blocked)), 403);
    ghost var first := entries;
    var lists := [policy.allowed, r.security.allowed];
    for i := 0 to 2
      invariant entries == first + (if i > 0 then Outside(base, policy.allowed) else [])
                           + (if i > 1 then Outside(base, r.security.allowed) else [])
    {
      if |lists[i]| > 0 {
        entries := entries + [Entry(base.(outside := Some(lists[i])), Reject(403))];
      }
    }
    var methods := AppendEachUnique(policy.deniedMethods, r.security.deniedMethods);
    if |methods| > 0 {
      entries := entries + [Entry(base.(methods := Some(methods)), Reject(405))];
    }
    assert entries == first + Outside(base, policy.allowed) + Outside(base, r.security.allowed)
                      + Single(|methods| > 0, base.(methods := Some(methods)), 405);
    var denied := AppendEachUnique(policy.deniedPrefixes, r.security.deniedPrefixes);
    var paths := RestrictPaths(r.pathPrefix, denied);
    if |paths| > 0 {
      entries := entries + [Entry(base.(paths := Some(paths)), Reject(403))];
    }
    assert entries == SecurityEntries(r, policy);
    return Good((entries, maxBody));
  }

  function Single(present: bool, m: Match, status: int): seq<Entry> {
    if present then [Entry(m, Reject(status))] else []
  }

  function Outside(base: Match, ranges: seq<string>): seq<Entry> {
    Single(|ranges| > 0, base.(outside := Some(ranges)), 403)
  }

  /** The rejections in order: blocked sources, both allow lists, methods, paths. */
  function SecurityEntries(r: Route, policy: Policy): seq<Entry> {
    if !Secured(r, policy) then []
    else
      var base := RouteMatch(r);
      var blocked := AppendUnique(policy.blocked, r.security.blocked);
      var methods := AppendUnique(policy.deniedMethods, r.security.deniedMethods);
      var paths := RestrictedPaths(r.pathPrefix, AppendUnique(policy.deniedPrefixes, r.security.deniedPrefixes));
      Single(|blocked| > 0, base.(within := Some(blocked)), 403) + Outside(base, policy.allowed)
      + Outside(base, r.security.allowed)
      + Single(|methods| > 0, base.(methods := Some(methods)), 405)
      + Single(|paths| > 0, base.(paths := Some(paths)), 403)
  }

  // ---------- First match ----------

  function FirstMatch(net: Ranges, entries: seq<Entry>, req: Request): Option<Action> {
    if entries == [] then None
    else if Matches(net, entries[0].matcher, req) then Some(entries[0].action)
    else FirstMatch(net, entries[1..], req)
  }

  function Or<T>(a: Option<T>, b: Option<T>): Option<T> {
    if a.Some? then a else b
  }

  lemma {:induction false} FirstMatchOfBoth(net: Ranges, a: seq<Entry>, b: seq<Entry>, req: Request)
    ensures FirstMatch(net, a + b, req) == Or(FirstMatch(net, a, req), FirstMatch(net, b, req))
  {
    hide Matches;
    if a == [] {
      assert a + b == b;
    } else {
      FirstMatchOfBoth(net, a[1..], b, req);
      assert (a + b)[1..] == a[1..] + b;
    }
  }

  /** What the policy says about a request, in its own terms. */
  function Verdict(net: Ranges, r: Route, policy: Policy, req: Request): Option<Action> {
    if !Secured(r, policy) then None
    else if AnyRange(net, policy.blocked, req.source) || AnyRange(net, r.security.blocked, req.source)
    then Some(Reject(403))
    else if policy.allowed != [] && !AnyRange(net, policy.allowed, req.source) then Some(Reject(403))
      else if r.security.allowed != [] && !AnyRange(net, r.security.allowed, req.source) then Some(Reject(403))
      else if req.verb in policy.deniedMethods || req.verb in r.security.deniedMethods then Some(Reject(405))
      else if Denied(r, policy, req.path) then Some(Reject(403))
      else None
  }

  predicate Denied(r: Route, policy: Policy, path: string) {
    DeniedPath(r.pathPrefix, policy.deniedPrefixes, path) || DeniedPath(r.pathPrefix, r.security.deniedPrefixes, path)
  }

  /** Prefixes without stars, as validation demands. */
  predicate Starless(r: Route, policy: Policy) {
    && '*' !in r.pathPrefix
    && (forall d <- policy.deniedPrefixes :: '*' !in d) && forall d <- r.security.deniedPrefixes :: '*' !in d
  }

  /** The request is for the route's host and arrived on the listener the route names, if it names one. */
  predicate Reaches(r: Route, req: Request) {
    && HostMatches(r.host, req.host)
    && (r.listenerPort > 0 ==> req.port == r.listenerPort)
    && (r.listenerProtocol != "" ==> req.protocol == r.listenerProtocol)
  }

  /** The request reaches the route and its path lies under the route's prefix. */
  predicate Addressed(r: Route, req: Request) {
    Reaches(r, req) && (r.pathPrefix != "" ==> Under(NormalizePrefix(r.pathPrefix), req.path))
  }

  /** The patterns of denied paths stand in the place of the route's own, so they can also reject a request that is
      not under the route's prefix. */
  predicate Strays(r: Route, policy: Policy, req: Request) {
    Secured(r, policy) && Reaches(r, req) && !Addressed(r, req) && Denied(r, policy, req.path)
  }

  /** The rendered common part with a denied prefix is no wider than the route's rendered prefix. */
  predicate StaysInside(routePrefix: string, denied: string) {
    var common := Intersect(routePrefix, denied);
    common.Some? ==> AtOrBelow(NormalizePrefix(routePrefix), NormalizePrefix(common.value))
  }

  /** Some denied prefix reaches outside the route. */
  predicate Escapes(r: Route, policy: Policy) {
    r.pathPrefix != "" && exists d <- policy.deniedPrefixes + r.security.deniedPrefixes :: !StaysInside(r.pathPrefix, d)
  }

  lemma DeniedInside(routePrefix: string, denied: string)
    ensures (forall path :: DeniedBy(routePrefix, denied, path) ==> Under(NormalizePrefix(routePrefix), path)) <==>
            StaysInside(routePrefix, denied)
  {
    hide Under, AtOrBelow;
    var common := Intersect(routePrefix, denied);
    TrimSlashesShape(TrimSpace(routePrefix));
    if common.Some? {
      NarrowerPrefix(NormalizePrefix(routePrefix), NormalizePrefix(common.value));
      assert forall path :: DeniedBy(routePrefix, denied, path) <==> Under(NormalizePrefix(common.value), path);
    }
  }

  /** A host that a pattern matches. */
  lemma SomeHost(pattern: string) returns (host: string)
    ensures HostMatches(pattern, host)
  {
    if "*." <= pattern {
      host := "a" + pattern[1..];
      assert host[..|host| - |pattern| + 1] == "a" && host[|host| - |pattern| + 1..] == pattern[1..];
    } else {
      host := pattern;
    }
  }

  /** Some request strays into a route if and only if one of the denied prefixes reaches outside it. */
  lemma StraysExactly(r: Route, policy: Policy)
    ensures (exists req :: Strays(r, policy, req)) <==> Secured(r, policy) && Escapes(r, policy)
  {
    hide Under, DeniedBy, StaysInside, NormalizePrefix, HostMatches;
    var all := policy.deniedPrefixes + r.security.deniedPrefixes;
    if req :| Strays(r, policy, req) {
      var d :| d in all && DeniedBy(r.pathPrefix, d, req.path);
      DeniedInside(r.pathPrefix, d);
    }
    if Secured(r, policy) && Escapes(r, policy) {
      var d :| d in all && !StaysInside(r.pathPrefix, d);
      DeniedInside(r.pathPrefix, d);
      var path :| DeniedBy(r.pathPrefix, d, path) && !Under(NormalizePrefix(r.pathPrefix), path);
      var host := SomeHost(r.host);
      var req := Request(host, r.listenerPort, r.listenerProtocol, path, "", "", []);
      assert Strays(r, policy, req);
    }
  }

  /** For rooted prefixes that is so exactly when rendering changes the route's prefix once more and the denied prefix
      lies at or above it. */
  lemma EscapesFromUnstable(routePrefix: string, denied: string)
    requires Rooted(NormalizePrefix(routePrefix)) && Rooted(NormalizePrefix(denied))
    ensures !StaysInside(routePrefix, denied) <==>
            && !StablePrefix(NormalizePrefix(routePrefix))
            && (NormalizePrefix(denied) == "" || AtOrBelow(NormalizePrefix(denied), NormalizePrefix(routePrefix)))
  {
    hide TrimSlashes, TrimSpace;
    var l, r := NormalizePrefix(routePrefix), NormalizePrefix(denied);
    TrimSlashesShape(TrimSpace(routePrefix));
    NormalizedRoot();
    if l != "" && (r == "" || AtOrBelow(r, l)) {
      NormalizedIsPart(l);
    } else if l == "" || l + "/" <= r {
      RenderedBelow(l, r);
    }
  }

  lemma NormalizedRoot()
    ensures NormalizePrefix("") == ""
  {
  }

  /** Rendering a prefix below another one leaves it there, or cuts it back to that one. */
  lemma RenderedBelow(outer: string, inner: string)
    requires Rooted(outer) && Rooted(inner) && (outer == "" || outer[|outer| - 1] != '/')
    requires outer == "" || outer + "/" <= inner
    ensures AtOrBelow(outer, NormalizePrefix(inner))
  {
    hide TrimSlashes, TrimSpace, TrimRight;
    if inner != "" {
      assert outer + "/" <= inner && inner[0] == '/' && inner[|outer|] == '/';
      TrimSpaceOfRooted(inner);
      TrimRightKeeps(inner, |outer| + 1);
      TrimRightShape(inner);
      var trimmed := TrimRight(inner);
      TrimSlashesShape(trimmed);
      if outer != "" {
        assert trimmed[|outer| - 1] == outer[|outer| - 1];
        TrimSlashesKeeps(trimmed, |outer|);
      }
      var rendered := TrimSlashes(trimmed);
      assert rendered == inner[..|rendered|];
      if |rendered| == |outer| {
        assert outer == inner[..|outer|];
      } else {
        assert outer + "/" == inner[..|outer| + 1];
      }
    } else {
      NormalizedRoot();
    }
  }

  lemma TrimSpaceOfRooted(s: string)
    requires s != "" && s[0] == '/'
    ensures TrimSpace(s) == TrimRight(s)
  {
    assert TrimLeft(s) == s;
  }

  /** A rule for "/a / / /" compiles to a route for "/a / ". That is matched as "/a ", but rejected for a denied "/" as
      "/a", so the route answers a request for "/a/b" as well. */
  lemma StrayedPrefix(rule: Rule, l: Listener, p: Pool, policy: Policy, req: Request)
    requires rule.pathPrefix == "/a / / /" && "/" in policy.deniedPrefixes && req.path == "/a/b"
    requires var r := CompileRule(NormalizeRule(rule), l, p); Secured(r, policy) && Reaches(r, req)
    ensures ValidPathPrefix(NormalizeRule(rule).pathPrefix)
    ensures Strays(CompileRule(NormalizeRule(rule), l, p), policy, req)
  {
    hide Reaches, Secured, NormalizeRule, CompileRule, NormalizePrefix, Under, DeniedBy;
    CompiledPlace(rule, l, p);
    StoredPrefix(rule);
    BlankedPrefixes();
    WiderWhenRendered();
    assert DeniedPath("/a / ", policy.deniedPrefixes, "/a/b");
  }

  lemma WiderWhenRendered()
    ensures DeniedBy("/a / ", "/", "/a/b") && !Under(NormalizePrefix("/a / "), "/a/b")
  {
    hide NormalizePrefix;
    BlankedPrefixes();
    UnstablePrefix();
    assert "/a" + "/" <= "/a/b" && "/a "[2] != "/a/b"[2];
  }

  lemma StoredPrefix(rule: Rule)
    ensures NormalizeRule(rule).pathPrefix == NormalizePrefix(rule.pathPrefix)
  {
    hide NormalizePrefix, NormalizeSecurity, Lower, TrimSpace;
  }

  lemma BlankedPrefixes()
    ensures NormalizePrefix("/a / / /") == "/a / / " && NormalizePrefix("/a / / ") == "/a / "
    ensures NormalizePrefix("/a / ") == "/a " && NormalizePrefix("/") == ""
  {
    hide NormalizePrefix;
    BlankedSlash("/a / / ");
    BlankedSlash("/a / ");
    BlankedSlash("/a ");
    assert "/a / / " + "/" == "/a / / /" && "/a / " + "/ " == "/a / / " && "/a " + "/ " == "/a / ";
    LoneSlash();
  }

  lemma LoneSlash()
    ensures NormalizePrefix("/") == ""
  {
    TrimSpaceFixpoint("/");
    assert "/"[..0] == "" && TrimSlashes("/") == "";
  }

  lemma RouteMatchMeaning(net: Ranges, r: Route, req: Request)
    requires '*' !in r.pathPrefix
    ensures Matches(net, RouteMatch(r), req) <==> Addressed(r, req)
  {
    hide HostMatches;
    MatchersAcceptPrefix(r.pathPrefix, req.path);
  }

  lemma SingleMeaning(net: Ranges, present: bool, m: Match, status: int, req: Request)
    ensures FirstMatch(net, Single(present, m, status), req) ==
            if present && Matches(net, m, req) then Some(Reject(status)) else None
  {
    hide Matches;
    assert Single(present, m, status)[|Single(present, m, status)|..] == [];
  }

  /** The five conditions, each in the matcher's terms. */
  lemma ConditionsMeaning(net: Ranges, r: Route, policy: Policy, req: Request)
    requires Starless(r, policy)
    ensures var base := RouteMatch(r);
            var blocked := AppendUnique(policy.blocked, r.security.blocked);
            var methods := AppendUnique(policy.deniedMethods, r.security.deniedMethods);
            var paths := RestrictedPaths(r.pathPrefix, AppendUnique(policy.deniedPrefixes, r.security.deniedPrefixes));
            var here := Addressed(r, req);
            && (Matches(net, base.(within := Some(blocked)), req)
                <==> here
                     && (AnyRange(net, policy.blocked, req.source) || AnyRange(net, r.security.blocked, req.source)))
            && (Matches(net, base.(outside := Some(policy.allowed)), req) <==>
                here && !AnyRange(net, policy.allowed, req.source))
            && (Matches(net, base.(outside := Some(r.security.allowed)), req) <==>
                here && !AnyRange(net, r.security.allowed, req.source))
            && (Matches(net, base.(methods := Some(methods)), req)
                <==> here && (req.verb in policy.deniedMethods || req.verb in r.security.deniedMethods))
            && (Matches(net, base.(paths := Some(paths)), req) <==> Reaches(r, req) && Denied(r, policy, req.path))
  {
    hide HostMatches, AnyRange, AnyPath, PathMatchers, Under, DeniedBy;
    MatchersAcceptPrefix(r.pathPrefix, req.path);
    EitherRange(net, policy.blocked, r.security.blocked, req.source);
    AppendedMembers(policy.deniedMethods, r.security.deniedMethods);
    AppendedMembers(policy.deniedPrefixes, r.security.deniedPrefixes);
    RestrictedMeaning(r.pathPrefix, AppendUnique(policy.deniedPrefixes, r.security.deniedPrefixes), req.path);
  }

  lemma NoneListed(net: Ranges, values: seq<string>, more: seq<string>, source: string)
    ensures |AppendUnique(values, more)| == 0 ==> values == [] && more == []
    ensures values == [] ==> !AnyRange(net, values, source)
  {
    AppendedMembers(values, more);
    if more != [] {
      assert more[0] in AppendUnique(values, more);
    }
    if values != [] {
      assert values[0] in AppendUnique(values, more);
    }
  }

  /** The security entries reject exactly what the policy says, in its order, of the requests addressed to the route,
      and of the others those that stray into them. */
  lemma SecurityEntriesMeaning(net: Ranges, r: Route, policy: Policy, req: Request)
    requires Starless(r, policy)
    ensures FirstMatch(net, SecurityEntries(r, policy), req) ==
            if Addressed(r, req) then Verdict(net, r, policy, req)
            else if Strays(r, policy, req) then Some(Reject(403)) else None
  {
    hide Matches, AnyRange, Denied, FirstMatch, RestrictedPaths, Single, Reaches, Under;
    if Secured(r, policy) {
      var base := RouteMatch(r);
      var blocked := AppendUnique(policy.blocked, r.security.blocked);
      var methods := AppendUnique(policy.deniedMethods, r.security.deniedMethods);
      var paths := RestrictedPaths(r.pathPrefix, AppendUnique(policy.deniedPrefixes, r.security.deniedPrefixes));
      var e1 := Single(|blocked| > 0, base.(within := Some(blocked)), 403);
      var e2 := Single(|policy.allowed| > 0, base.(outside := Some(policy.allowed)), 403);
      var e3 := Single(|r.security.allowed| > 0, base.(outside := Some(r.security.allowed)), 403);
      var e4 := Single(|methods| > 0, base.(methods := Some(methods)), 405);
      var e5 := Single(|paths| > 0, base.(paths := Some(paths)), 403);
      FirstMatchOfBoth(net, e1 + e2 + e3 + e4, e5, req);
      FirstMatchOfBoth(net, e1 + e2 + e3, e4, req);
      FirstMatchOfBoth(net, e1 + e2, e3, req);
      FirstMatchOfBoth(net, e1, e2, req);
      SingleMeaning(net, |blocked| > 0, base.(within := Some(blocked)), 403, req);
      SingleMeaning(net, |policy.allowed| > 0, base.(outside := Some(policy.allowed)), 403, req);
      SingleMeaning(net, |r.security.allowed| > 0, base.(outside := Some(r.security.allowed)), 403, req);
      SingleMeaning(net, |methods| > 0, base.(methods := Some(methods)), 405, req);
      SingleMeaning(net, |paths| > 0, base.(paths := Some(paths)), 403, req);
      ConditionsMeaning(net, r, policy, req);
      NothingListed(net, r, policy, req);
    } else {
      NoEntries(net, req);
    }
  }

  lemma NoEntries(net: Ranges, req: Request)
    ensures FirstMatch(net, [], req) == None
  {
  }

  /** An empty list leaves its entry out and would have matched nothing. */
  lemma NothingListed(net: Ranges, r: Route, policy: Policy, req: Request)
    requires Starless(r, policy)
    ensures |AppendUnique(policy.blocked, r.security.blocked)| == 0 ==>
              !AnyRange(net, policy.blocked, req.source) && !AnyRange(net, r.security.blocked, req.source)
    ensures |AppendUnique(policy.deniedMethods, r.security.deniedMethods)| == 0 ==>
              req.verb !in policy.deniedMethods && req.verb !in r.security.deniedMethods
    ensures Reaches(r, req) ==>
              RestrictedPaths(r.pathPrefix, AppendUnique(policy.deniedPrefixes, r.security.deniedPrefixes)) == [] ==>
                !Denied(r, policy, req.path)
  {
    NoneListed(net, policy.blocked, r.security.blocked, req.source);
    NoneListed(net, policy.deniedMethods, r.security.deniedMethods, req.source);
    ConditionsMeaning(net, r, policy, req);
    var paths := RestrictedPaths(r.pathPrefix, AppendUnique(policy.deniedPrefixes, r.security.deniedPrefixes));
    if |paths| == 0 {
      assert !AnyPath(paths, req.path);
    }
  }

  // ---------- Tokens and header policies ----------

  function NonBlank(tokens: seq<string>): seq<string> {
    if tokens == [] then []
    else
      var before, last := NonBlank(tokens[..|tokens| - 1]), tokens[|tokens| - 1];
      if TrimSpace(last) == "" then before else before + [last]
  }

  function AuthTokens(auth: Protocol.Auth): seq<string> {
    NonBlank([auth.adminToken] + auth.adminTokens)
  }

  method CollectTokens(auth: Protocol.Auth) returns (output: seq<string>)
    ensures output == AuthTokens(auth)
  {
    output := [];
    if TrimSpace(auth.adminToken) != "" {
      output := [auth.adminToken];
    }
    ghost var all := [auth.adminToken] + auth.adminTokens;
    assert all[..1] == [auth.adminToken] && NonBlank([auth.adminToken]) == output by {
      assert [auth.adminToken][..0] == [];
    }
    for i := 0 to |auth.adminTokens|
      invariant output == NonBlank(all[..i + 1])
    {
      assert all[..i + 2][..i + 1] == all[..i + 1] && all[i + 1] == auth.adminTokens[i];
      if TrimSpace(auth.adminTokens[i]) != "" {
        output := output + [auth.adminTokens[i]];
      }
    }
    assert all[..|auth.adminTokens| + 1] == all;
  }

  predicate ByDefault(auth: Protocol.Auth) {
    !auth.allowBearer && !auth.allowAdminHeader && auth.headerName == "" && auth.headerValue == ""
  }

  function TokenHeaders(token: string, bearer: bool, header: bool): seq<Header> {
    (if bearer then [Header("Authorization", "Bearer " + token)] else [])
    + (if header then [Header("X-Admin-Token", token)] else [])
  }

  function TokenPolicies(tokens: seq<string>, bearer: bool, header: bool): seq<Header> {
    if tokens == [] then []
    else TokenPolicies(tokens[..|tokens| - 1], bearer, header) + TokenHeaders(tokens[|tokens| - 1], bearer, header)
  }

  function HeaderPolicies(auth: Protocol.Auth): seq<Header> {
    TokenPolicies(AuthTokens(auth), auth.allowBearer || ByDefault(auth), auth.allowAdminHeader || ByDefault(auth))
    + (if auth.headerName != "" && auth.headerValue != "" then [Header(auth.headerName, auth.headerValue)] else [])
  }

  method ProtectedHeaderPolicies(auth: Protocol.Auth) returns (policies: seq<Header>)
    ensures policies == HeaderPolicies(auth)
  {
    hide AuthTokens;
    var tokens := CollectTokens(auth);
    var bearer, header := auth.allowBearer, auth.allowAdminHeader;
    if !bearer && !header && auth.headerName == "" && auth.headerValue == "" {
      bearer, header := true, true;
    }
    policies := [];
    for i := 0 to |tokens|
      invariant policies == TokenPolicies(tokens[..i], bearer, header)
    {
      assert tokens[..i + 1][..i] == tokens[..i];
      ghost var before := policies;
      if bearer {
        policies := policies + [Header("Authorization", "Bearer " + tokens[i])];
      }
      if header {
        policies := policies + [Header("X-Admin-Token", tokens[i])];
      }
      assert policies == before + TokenHeaders(tokens[i], bearer, header);
    }
    assert tokens[..|tokens|] == tokens;
    if auth.headerName != "" && auth.headerValue != "" {
      policies := policies + [Header(auth.headerName, auth.headerValue)];
    }
  }

  /** A token that the gateway accepts: configured, and not blank. */
  predicate Accepts(auth: Protocol.Auth, token: string) {
    TrimSpace(token) != "" && (token == auth.adminToken || token in auth.adminTokens)
  }

  /** The credentials that open a protected route: a token in an allowed header, or the additional header. Without any
      choice both token headers are allowed. */
  predicate Opens(auth: Protocol.Auth, h: Header) {
    var unset := !auth.allowBearer && !auth.allowAdminHeader && auth.headerName == "" && auth.headerValue == "";
    || (h.name == "Authorization" && (auth.allowBearer || unset) && "Bearer " <= h.value && Accepts(auth, h.value[7..]))
    || (h.name == "X-Admin-Token" && (auth.allowAdminHeader || unset) && Accepts(auth, h.value))
    || (auth.headerName != "" && auth.headerValue != "" && h == Header(auth.headerName, auth.headerValue))
  }

  lemma {:induction false} NonBlankMembers(tokens: seq<string>, t: string)
    ensures t in NonBlank(tokens) <==> t in tokens && TrimSpace(t) != ""
  {
    hide TrimSpace;
    if tokens != [] {
      NonBlankMembers(tokens[..|tokens| - 1], t);
      assert tokens == tokens[..|tokens| - 1] + [tokens[|tokens| - 1]];
    }
  }

  lemma AcceptedTokens(auth: Protocol.Auth)
    ensures forall t :: t in AuthTokens(auth) <==> Accepts(auth, t)
  {
    hide TrimSpace, NonBlank;
    forall t ensures t in AuthTokens(auth) <==> Accepts(auth, t) {
      NonBlankMembers([auth.adminToken] + auth.adminTokens, t);
    }
  }

  lemma BearerToken(t: string)
    ensures "Bearer " <= "Bearer " + t && ("Bearer " + t)[7..] == t
  {
  }

  predicate OpensWith(token: string, bearer: bool, header: bool, h: Header) {
    || (h.name == "Authorization" && bearer && h.value == "Bearer " + token)
    || (h.name == "X-Admin-Token" && header && h.value == token)
  }

  lemma TokenHeadersMeaning(token: string, bearer: bool, header: bool, h: Header)
    ensures h in TokenHeaders(token, bearer, header) <==> OpensWith(token, bearer, header, h)
  {
  }

  lemma {:induction false} TokenPoliciesMeaning(tokens: seq<string>, bearer: bool, header: bool, h: Header)
    ensures h in TokenPolicies(tokens, bearer, header) <==> exists t <- tokens :: OpensWith(t, bearer, header, h)
  {
    hide TokenHeaders, OpensWith;
    if tokens != [] {
      var n := |tokens| - 1;
      TokenPoliciesMeaning(tokens[..n], bearer, header, h);
      TokenHeadersMeaning(tokens[n], bearer, header, h);
      assert tokens == tokens[..n] + [tokens[n]];
    }
  }

  lemma PoliciesMeaning(auth: Protocol.Auth, h: Header)
    ensures h in HeaderPolicies(auth) <==> Opens(auth, h)
  {
    hide AuthTokens, TokenPolicies, TrimSpace, Accepts;
    AcceptedTokens(auth);
    if "Bearer " <= h.value {
      assert h.value == "Bearer " + h.value[7..];
    }
    forall t: string ensures "Bearer " <= "Bearer " + t && ("Bearer " + t)[7..] == t {
      BearerToken(t);
    }
    TokenPoliciesMeaning(AuthTokens(auth), auth.allowBearer || ByDefault(auth),
                         auth.allowAdminHeader || ByDefault(auth), h);
  }

  /** The distinct header names, up to case, that a proxied request loses. */
  function HeaderNames(policies: seq<Header>): seq<string> {
    if policies == [] then []
    else
      var before, last := HeaderNames(policies[..|policies| - 1]), policies[|policies| - 1].name;
      if Lists(before, last) then before else before + [last]
  }

  predicate Lists(names: seq<string>, name: string) {
    exists n <- names :: Lower(n) == Lower(name)
  }

  /** No two names are the same up to case, and each is the name of a policy. */
  lemma {:induction false} NamesDiffer(policies: seq<Header>)
    ensures Distinct(HeaderNames(policies))
    ensures forall name <- HeaderNames(policies) :: NamedBy(policies, name)
  {
    hide Lower;
    if policies != [] {
      var n := |policies| - 1;
      var before, last := HeaderNames(policies[..n]), policies[n];
      NamesDiffer(policies[..n]);
      assert policies == policies[..n] + [last];
      assert NamedBy(policies, last.name);
      forall name | name in before ensures NamedBy(policies, name) {
        assert NamedBy(policies[..n], name);
      }
    }
  }

  predicate Distinct(names: seq<string>) {
    forall i, j :: 0 <= i < j < |names| ==> Lower(names[i]) != Lower(names[j])
  }

  predicate NamedBy(policies: seq<Header>, name: string) {
    exists h <- policies :: h.name == name
  }

  /** No credential reaches a backend: every policy header is among those removed. */
  lemma {:induction false} CredentialsAreRemoved(policies: seq<Header>, h: Header)
    requires h in policies
    ensures Lists(HeaderNames(policies), h.name)
  {
    hide Lower;
    var n := |policies| - 1;
    assert policies == policies[..n] + [policies[n]];
    var before := HeaderNames(policies[..n]);
    if h in policies[..n] {
      CredentialsAreRemoved(policies[..n], h);
      var name :| name in before && Lower(name) == Lower(h.name);
      assert name in HeaderNames(policies);
    } else if !Lists(before, h.name) {
      assert h.name in HeaderNames(policies);
    }
  }

  method UniqueHeaderNames(policies: seq<Header>) returns (output: seq<string>)
    ensures output == HeaderNames(policies)
    ensures Distinct(output) && forall name <- output :: NamedBy(policies, name)
    ensures forall h <- policies :: Lists(output, h.name)
  {
    hide Lower;
    NamesDiffer(policies);
    output := [];
    var seen: set<string> := {};
    for i := 0 to |policies|
      invariant output == HeaderNames(policies[..i])
      invariant forall key :: key in seen <==> exists n <- output :: Lower(n) == key
    {
      assert policies[..i + 1][..i] == policies[..i];
      if Lower(policies[i].name) !in seen {
        seen := seen + {Lower(policies[i].name)};
        output := output + [policies[i].name];
      }
    }
    assert policies[..|policies|] == policies;
    forall h | h in policies ensures Lists(output, h.name) {
      CredentialsAreRemoved(policies, h);
    }
  }

  // ---------- The whole route ----------

  /** Where an upstream is dialled and whether with TLS. */
  function UpstreamDial(u: Upstream): Option<(Url, bool)> {
    if !ValidUpstream(u) then None else Some((u.url, Lower(u.url.scheme) == "https"))
  }

  /** An upstream that can be dialled: a URL with a host, over HTTP or HTTPS. */
  predicate Dialable(u: Upstream) {
    && u.url.Url? && (u.url.hostname != "" || u.url.port.Some?)
    && (Lower(u.url.scheme) == "http" || Lower(u.url.scheme) == "https")
  }

  lemma DialMeaning(u: Upstream)
    ensures UpstreamDial(u).Some? <==> Dialable(u)
    ensures UpstreamDial(u).Some? ==> UpstreamDial(u).value == (u.url, Lower(u.url.scheme) == "https")
  {
  }

  lemma UrlOfDialable(u: Upstream)
    ensures Dialable(u) ==> u.url.Url?
    ensures UpstreamDial(u).Some? ==> u.url.Url?
  {
  }

  predicate AllUpstreams(r: Route, tls: bool) {
    forall u <- r.upstreams :: UpstreamDial(u).Some? && UpstreamDial(u).value.1 == tls
  }

  predicate UsesTls(r: Route) {
    exists u <- r.upstreams :: UpstreamDial(u).Some? && UpstreamDial(u).value.1
  }

  function Dials(r: Route): seq<Url>
    requires forall u <- r.upstreams :: UpstreamDial(u).Some?
  {
    seq(|r.upstreams|, i requires 0 <= i < |r.upstreams| => UpstreamDial(r.upstreams[i]).value.0)
  }

  /** Why a route cannot be rendered; None when it can. */
  function RouteError(r: Route, policy: Policy, ranges: seq<string>): Option<Failure> {
    if r.exposure == "internal" && ranges == [] then Some(EmptyInternalRanges)
    else if !AllUpstreams(r, true) && !AllUpstreams(r, false) then
      Some(if FirstBad(r.upstreams) then BadUpstream else MixedSchemes)
    else if MaxBody(r, policy) < 0 then Some(NegativeBody)
    else None
  }

  /** Read in order, an upstream that cannot be dialled comes before a change of scheme. */
  predicate FirstBad(upstreams: seq<Upstream>) {
    if upstreams == [] then false
    else if UpstreamDial(upstreams[0]).None? then true
    else if |upstreams| == 1 then false
    else if UpstreamDial(upstreams[1]).None? then true
    else UpstreamDial(upstreams[1]).value.1 == UpstreamDial(upstreams[0]).value.1 && FirstBad(upstreams[1..])
  }

  function Guarded(r: Route, ranges: seq<string>): Match {
    if r.exposure == "internal" then RouteMatch(r).(within := Some(ranges)) else RouteMatch(r)
  }

  function ProxyEntries(base: Match, policies: seq<Header>, action: Action): seq<Entry> {
    seq(|policies|, i requires 0 <= i < |policies| => Entry(base.(header := Some(policies[i])), action))
  }

  function ForwardAction(r: Route, policy: Policy, strip: seq<string>): Action
    requires forall u <- r.upstreams :: UpstreamDial(u).Some?
  {
    Forward(r.id, Dials(r), UsesTls(r), strip, MaxBody(r, policy))
  }

  function AccessEntries(r: Route, policy: Policy, auth: Protocol.Auth, ranges: seq<string>): seq<Entry>
    requires RouteError(r, policy, ranges).None?
  {
    Renderable(r, policy, ranges);
    var base, policies := Guarded(r, ranges), HeaderPolicies(auth);
    if !r.isProtected then [Entry(base, ForwardAction(r, policy, []))]
    else if policies == [] then [Entry(base, Reject(503))]
    else ProxyEntries(base, policies, ForwardAction(r, policy, HeaderNames(policies))) + [Entry(base, Reject(401))]
  }

  lemma Renderable(r: Route, policy: Policy, ranges: seq<string>)
    requires RouteError(r, policy, ranges).None?
    ensures forall u <- r.upstreams :: UpstreamDial(u).Some?
  {
  }

  function RouteEntries(r: Route, policy: Policy, auth: Protocol.Auth, ranges: seq<string>): seq<Entry>
    requires RouteError(r, policy, ranges).None?
  {
    Renderable(r, policy, ranges);
    SecurityEntries(r, policy) + AccessEntries(r, policy, auth, ranges)
  }

  /** Reads the upstreams in order; they must all use one scheme. */
  method DialUpstreams(r: Route) returns (out: Outcome<(seq<Url>, bool)>)
    ensures if AllUpstreams(r, true) || AllUpstreams(r, false) then out == Good((Dials(r), UsesTls(r)))
            else out == Bad(if FirstBad(r.upstreams) then BadUpstream else MixedSchemes)
    ensures out.Good? ==>
              && |out.value.0| == |r.upstreams|
              && (forall i :: 0 <= i < |r.upstreams| ==> out.value.0[i] == r.upstreams[i].url)
              && forall u <- r.upstreams :: u.url.Url? && (out.value.1 <==> Lower(u.url.scheme) == "https")
    ensures out == Bad(BadUpstream) ==> exists u <- r.upstreams :: !Dialable(u)
    ensures out == Bad(MixedSchemes) ==>
              exists u <- r.upstreams, v <- r.upstreams ::
                Dialable(u) && Dialable(v) && Lower(u.url.scheme) != Lower(v.url.scheme)
  {
    hide ValidUpstream, Dialable, Lower;
    var dials: seq<Url> := [];
    var tls, known := false, false;
    for i := 0 to |r.upstreams|
      invariant known == (i > 0)
      invariant i == 0 ==> !tls
      invariant |dials| == i
      invariant forall k :: 0 <= k < i ==>
                              UpstreamDial(r.upstreams[k]).Some?
                              && UpstreamDial(r.upstreams[k]).value == (dials[k], tls)
    {
      var dial := UpstreamDial(r.upstreams[i]);
      DialMeaning(r.upstreams[i]);
      DialMeaning(r.upstreams[0]);
      if dial.None? {
        BadAt(r.upstreams, i);
        assert r.upstreams[i] in r.upstreams;
        return Bad(BadUpstream);
      }
      if known && tls != dial.value.1 {
        MixedAt(r.upstreams, i);
        assert r.upstreams[i] in r.upstreams && r.upstreams[0] in r.upstreams;
        UrlOfDialable(r.upstreams[i]);
        UrlOfDialable(r.upstreams[0]);
        return Bad(MixedSchemes);
      }
      tls, known := dial.value.1, true;
      dials := dials + [dial.value.0];
    }
    forall u | u in r.upstreams ensures u.url.Url? && (tls <==> Lower(u.url.scheme) == "https") {
      DialMeaning(u);
      UrlOfDialable(u);
    }
    forall i | 0 <= i < |r.upstreams| ensures dials[i] == r.upstreams[i].url {
      DialMeaning(r.upstreams[i]);
    }
    assert AllUpstreams(r, tls);
    assert dials == Dials(r);
    if |r.upstreams| > 0 {
      assert r.upstreams[0] in r.upstreams && UpstreamDial(r.upstreams[0]).value.1 == tls;
    }
    assert tls == UsesTls(r);
    out := Good((dials, tls));
  }

  predicate SameScheme(upstreams: seq<Upstream>, n: nat)
    requires n <= |upstreams|
  {
    forall k :: 0 <= k < n ==> UpstreamDial(upstreams[k]).Some? && UpstreamDial(upstreams[0]).Some?
                               && UpstreamDial(upstreams[k]).value.1 == UpstreamDial(upstreams[0]).value.1
  }

  lemma {:induction false} BadAt(upstreams: seq<Upstream>, i: nat)
    requires i < |upstreams| && UpstreamDial(upstreams[i]).None? && SameScheme(upstreams, i)
    ensures FirstBad(upstreams)
  {
    hide UpstreamDial;
    if i > 0 {
      assert forall k :: 0 <= k < i - 1 ==> upstreams[1..][k] == upstreams[k + 1];
      BadAt(upstreams[1..], i - 1);
    }
  }

  lemma {:induction false} MixedAt(upstreams: seq<Upstream>, i: nat)
    requires 0 < i < |upstreams| && UpstreamDial(upstreams[i]).Some? && SameScheme(upstreams, i)
    requires UpstreamDial(upstreams[i]).value.1 != UpstreamDial(upstreams[0]).value.1
    ensures !FirstBad(upstreams)
  {
    hide UpstreamDial;
    if i > 1 {
      assert forall k :: 0 <= k < i - 1 ==> upstreams[1..][k] == upstreams[k + 1];
      MixedAt(upstreams[1..], i - 1);
    }
  }

  predicate BodyLimit(r: Route, policy: Policy, limit: int) {
    limit == if !policy.enabled || r.security.disabled then 0
    else if r.security.maxBody != 0 then r.security.maxBody else policy.maxBody
  }

  /** What a route can be rendered for: internal routes know their sources, all upstreams can be dialled with one
      scheme, and the body limit is not negative. */
  ghost predicate CanRender(r: Route, policy: Policy, ranges: seq<string>) {
    && (r.exposure == "internal" ==> ranges != [])
    && (forall u <- r.upstreams :: Dialable(u))
    && (forall u <- r.upstreams, v <- r.upstreams :: Lower(u.url.scheme) == Lower(v.url.scheme))
    && exists limit :: BodyLimit(r, policy, limit) && limit >= 0
  }

  /** A forwarding entry of a route: its upstreams in order, over TLS exactly if their scheme is "https", without the
      credentials of a protected route, and with the body limit in force. */
  ghost predicate ForwardsTo(r: Route, policy: Policy, auth: Protocol.Auth, a: Action) {
    && a.Forward? && a.routeId == r.id
    && |a.dials| == |r.upstreams| && (forall i :: 0 <= i < |r.upstreams| ==> a.dials[i] == r.upstreams[i].url)
    && (forall u <- r.upstreams :: u.url.Url? && (a.tls <==> Lower(u.url.scheme) == "https"))
    && (r.upstreams == [] ==> !a.tls)
    && (if r.isProtected then forall h :: Opens(auth, h) ==> Lists(a.strip, h.name) else a.strip == [])
    && BodyLimit(r, policy, a.maxBody)
  }

  /** What is wrong with a route that cannot be rendered. */
  ghost predicate Reason(r: Route, policy: Policy, ranges: seq<string>, error: Failure) {
    match error
    case EmptyInternalRanges => r.exposure == "internal" && ranges == []
    case BadUpstream => exists u <- r.upstreams :: !Dialable(u)
    case MixedSchemes =>
      exists u <- r.upstreams, v <- r.upstreams ::
        Dialable(u) && Dialable(v) && Lower(u.url.scheme) != Lower(v.url.scheme)
    case NegativeBody => exists limit :: BodyLimit(r, policy, limit) && limit < 0
    case _ => false
  }

  lemma {:induction false} FirstFault(upstreams: seq<Upstream>)
    requires upstreams != []
    ensures FirstBad(upstreams) ==> exists u <- upstreams :: !Dialable(u)
    ensures !FirstBad(upstreams) ==>
              && Dialable(upstreams[0])
              && var tls := UpstreamDial(upstreams[0]).value.1;
              || (forall u <- upstreams :: UpstreamDial(u).Some? && UpstreamDial(u).value.1 == tls)
              || exists v <- upstreams :: UpstreamDial(v).Some? && UpstreamDial(v).value.1 != tls
  {
    hide UpstreamDial, Dialable;
    DialMeaning(upstreams[0]);
    if |upstreams| > 1 {
      DialMeaning(upstreams[1]);
      FirstFault(upstreams[1..]);
      assert upstreams == [upstreams[0]] + upstreams[1..];
    }
  }

  lemma ErrorIsReason(r: Route, policy: Policy, ranges: seq<string>)
    ensures var error := RouteError(r, policy, ranges); error.Some? ==> Reason(r, policy, ranges, error.value)
  {
    hide Lower, Dialable, UpstreamDial;
    assert BodyLimit(r, policy, MaxBody(r, policy));
    if r.upstreams != [] && !AllUpstreams(r, true) && !AllUpstreams(r, false) {
      FirstFault(r.upstreams);
      assert r.upstreams[0] in r.upstreams;
      forall u | u in r.upstreams
        ensures UpstreamDial(u).Some? ==> Dialable(u) && u.url.Url?
        ensures UpstreamDial(u).Some? ==> UpstreamDial(u).value.1 == (Lower(u.url.scheme) == "https")
        ensures Dialable(u) ==> UpstreamDial(u).Some?
      {
        DialMeaning(u);
        UrlOfDialable(u);
      }
    }
  }

  lemma RenderableExactly(r: Route, policy: Policy, ranges: seq<string>)
    ensures RouteError(r, policy, ranges).None? <==> CanRender(r, policy, ranges)
  {
    hide Lower;
    assert BodyLimit(r, policy, MaxBody(r, policy));
    if CanRender(r, policy, ranges) && r.upstreams != [] {
      assert r.upstreams[0] in r.upstreams;
      var tls := Lower(r.upstreams[0].url.scheme) == "https";
      assert AllUpstreams(r, tls);
    }
  }

  lemma ForwardIsTo(r: Route, policy: Policy, auth: Protocol.Auth, ranges: seq<string>, strip: seq<string>)
    requires RouteError(r, policy, ranges).None?
    requires if r.isProtected then strip == HeaderNames(HeaderPolicies(auth)) else strip == []
    ensures forall u <- r.upstreams :: UpstreamDial(u).Some?
    ensures ForwardsTo(r, policy, auth, ForwardAction(r, policy, strip))
  {
    hide Lower, HeaderNames, HeaderPolicies, Opens, Lists;
    Renderable(r, policy, ranges);
    if r.isProtected {
      forall h | Opens(auth, h) ensures Lists(strip, h.name) {
        PoliciesMeaning(auth, h);
        CredentialsAreRemoved(HeaderPolicies(auth), h);
      }
    }
    if r.upstreams != [] {
      assert r.upstreams[0] in r.upstreams;
    }
    assert BodyLimit(r, policy, MaxBody(r, policy));
  }

  lemma RejectionsOnly(r: Route, policy: Policy)
    ensures forall e <- SecurityEntries(r, policy) :: e.action.Reject?
  {
    hide RouteMatch, AppendUnique, RestrictedPaths;
  }

  /** Every entry that forwards does so to the route's upstreams, and the others reject. */
  lemma EntriesForward(r: Route, policy: Policy, auth: Protocol.Auth, ranges: seq<string>)
    requires RouteError(r, policy, ranges).None?
    ensures forall e <- RouteEntries(r, policy, auth, ranges) ::
              e.action.Reject? || ForwardsTo(r, policy, auth, e.action)
  {
    hide RouteError, SecurityEntries, ForwardsTo, ForwardAction, HeaderNames, HeaderPolicies, Guarded;
    Renderable(r, policy, ranges);
    RejectionsOnly(r, policy);
    ForwardIsTo(r, policy, auth, ranges, if r.isProtected then HeaderNames(HeaderPolicies(auth)) else []);
    var security, access := SecurityEntries(r, policy), AccessEntries(r, policy, auth, ranges);
    assert forall e <- security + access :: e in security || e in access;
  }

  method RenderEntries(
    r: Route, auth: Protocol.Auth, policy: Policy, ranges: seq<string>)
    returns (out: Outcome<seq<Entry>>)
    ensures var error := RouteError(r, policy, ranges);
            out == if error.Some? then Bad(error.value) else Good(RouteEntries(r, policy, auth, ranges))
  {
    hide SecurityEntries, MaxBody, HeaderPolicies, HeaderNames, FirstBad, UpstreamDial, RouteMatch;
    var base := RouteMatch(r);
    if r.exposure == "internal" {
      if |ranges| == 0 {
        return Bad(EmptyInternalRanges);
      }
      base := base.(within := Some(ranges));
    }
    var dialled := DialUpstreams(r);
    if dialled.Bad? {
      return Bad(dialled.error);
    }
    var (dials, tls) := dialled.value;
    var security := RenderSecurityEntries(r, policy);
    if security.Bad? {
      return Bad(security.error);
    }
    var (entries, maxBody) := security.value;
    if !r.isProtected {
      return Good(entries + [Entry(base, Forward(r.id, dials, tls, [], maxBody))]);
    }
    var policies := ProtectedHeaderPolicies(auth);
    if |policies| == 0 {
      return Good(entries + [Entry(base, Reject(503))]);
    }
    var strip := UniqueHeaderNames(policies);
    var action := Forward(r.id, dials, tls, strip, maxBody);
    ghost var first := entries;
    for i := 0 to |policies|
      invariant entries == first + ProxyEntries(base, policies[..i], action)
    {
      assert ProxyEntries(base, policies[..i + 1], action)
          == ProxyEntries(base, policies[..i], action) + [Entry(base.(header := Some(policies[i])), action)];
      entries := entries + [Entry(base.(header := Some(policies[i])), action)];
    }
    assert policies[..|policies|] == policies;
    var fallback := Entry(base, Reject(401));
    assert entries + [fallback] == first + (ProxyEntries(base, policies, action) + [fallback]);
    return Good(entries + [fallback]);
  }

  /** The entries of a route, or the first reason against them. */
  method RenderRoute(
    r: Route, auth: Protocol.Auth, policy: Policy, ranges: seq<string>)
    returns (out: Outcome<seq<Entry>>)
    ensures var error := RouteError(r, policy, ranges);
            out == if error.Some? then Bad(error.value) else Good(RouteEntries(r, policy, auth, ranges))
    ensures out.Good? <==> CanRender(r, policy, ranges)
    ensures out.Bad? ==>
              Reason(r, policy, ranges, out.error)
    ensures out.Good? ==> forall e <- out.value :: e.action.Reject? || ForwardsTo(r, policy, auth, e.action)
  {
    hide CanRender, ForwardsTo, RouteError, RouteEntries, Reason;
    RenderableExactly(r, policy, ranges);
    ErrorIsReason(r, policy, ranges);
    if RouteError(r, policy, ranges).None? {
      EntriesForward(r, policy, auth, ranges);
    }
    out := RenderEntries(r, auth, policy, ranges);
  }

  /** What a route does with a request, in the policy's own terms; None leaves the request to the entries that
      follow. */
  function Decide(
    net: Ranges, r: Route, policy: Policy, auth: Protocol.Auth, ranges: seq<string>, req: Request): Option<Action>
    requires RouteError(r, policy, ranges).None?
  {
    Renderable(r, policy, ranges);
    if !Addressed(r, req) then (if Strays(r, policy, req) then Some(Reject(403)) else None)
    else if Verdict(net, r, policy, req).Some? then Verdict(net, r, policy, req)
    else if r.exposure == "internal" && !AnyRange(net, ranges, req.source) then None
    else if !r.isProtected then Some(ForwardAction(r, policy, []))
    else if HeaderPolicies(auth) == [] then Some(Reject(503))
    else if Credentialed(auth, req) then Some(ForwardAction(r, policy, HeaderNames(HeaderPolicies(auth))))
    else Some(Reject(401))
  }

  predicate Credentialed(auth: Protocol.Auth, req: Request) {
    exists h <- HeaderPolicies(auth) :: Carries(req, h)
  }

  lemma {:induction false} ProxyEntriesMeaning(
    net: Ranges, base: Match, policies: seq<Header>, action: Action, req: Request)
    requires base.header.None?
    ensures FirstMatch(net, ProxyEntries(base, policies, action), req) ==
            if Matches(net, base, req) && (exists h <- policies :: Carries(req, h)) then Some(action) else None
  {
    hide HostMatches, AnyPath, AnyRange, Carries;
    if policies != [] {
      assert ProxyEntries(base, policies, action)[1..] == ProxyEntries(base, policies[1..], action);
      assert policies == [policies[0]] + policies[1..];
      ProxyEntriesMeaning(net, base, policies[1..], action, req);
    }
  }

  lemma GuardedMeaning(net: Ranges, r: Route, ranges: seq<string>, req: Request)
    requires '*' !in r.pathPrefix
    ensures Guarded(r, ranges).header.None?
    ensures Matches(net, Guarded(r, ranges), req) <==>
            Addressed(r, req) && (r.exposure == "internal" ==> AnyRange(net, ranges, req.source))
  {
    hide HostMatches, AnyPath, AnyRange, Under, PathMatchers;
    MatchersAcceptPrefix(r.pathPrefix, req.path);
  }

  lemma OneEntryMeaning(net: Ranges, m: Match, action: Action, req: Request)
    ensures FirstMatch(net, [Entry(m, action)], req) == if Matches(net, m, req) then Some(action) else None
  {
    hide Matches;
    assert [Entry(m, action)][1..] == [];
  }

  lemma AccessMeaning(net: Ranges, r: Route, policy: Policy, auth: Protocol.Auth, ranges: seq<string>, req: Request)
    requires '*' !in r.pathPrefix && RouteError(r, policy, ranges).None? && Verdict(net, r, policy, req).None?
    requires !Strays(r, policy, req)
    ensures FirstMatch(net, AccessEntries(r, policy, auth, ranges), req) == Decide(net, r, policy, auth, ranges, req)
  {
    hide Matches, Guarded, Addressed, Strays, Verdict, AnyRange, HeaderPolicies, HeaderNames, FirstMatch, ProxyEntries,
      RouteError, ForwardAction, Carries;
    Renderable(r, policy, ranges);
    var base, policies := Guarded(r, ranges), HeaderPolicies(auth);
    GuardedMeaning(net, r, ranges, req);
    if !r.isProtected {
      OneEntryMeaning(net, base, ForwardAction(r, policy, []), req);
    } else if policies == [] {
      OneEntryMeaning(net, base, Reject(503), req);
    } else {
      var action := ForwardAction(r, policy, HeaderNames(policies));
      FirstMatchOfBoth(net, ProxyEntries(base, policies, action), [Entry(base, Reject(401))], req);
      ProxyEntriesMeaning(net, base, policies, action, req);
      OneEntryMeaning(net, base, Reject(401), req);
    }
  }

  /** A route's entries decide every request as its policy says. */
  lemma RouteMeaning(net: Ranges, r: Route, policy: Policy, auth: Protocol.Auth, ranges: seq<string>, req: Request)
    requires RouteError(r, policy, ranges).None? && Starless(r, policy)
    ensures FirstMatch(net, RouteEntries(r, policy, auth, ranges), req) == Decide(net, r, policy, auth, ranges, req)
  {
    hide FirstMatch, SecurityEntries, AccessEntries, RouteError, Verdict, Addressed;
    Renderable(r, policy, ranges);
    FirstMatchOfBoth(net, SecurityEntries(r, policy), AccessEntries(r, policy, auth, ranges), req);
    SecurityEntriesMeaning(net, r, policy, req);
    if Addressed(r, req) && Verdict(net, r, policy, req).None? {
      AccessMeaning(net, r, policy, auth, ranges, req);
    } else if !Addressed(r, req) {
      NotAddressed(net, r, policy, auth, ranges, req);
    }
  }

  lemma NotAddressed(net: Ranges, r: Route, policy: Policy, auth: Protocol.Auth, ranges: seq<string>, req: Request)
    requires RouteError(r, policy, ranges).None? && '*' !in r.pathPrefix && !Addressed(r, req)
    ensures FirstMatch(net, AccessEntries(r, policy, auth, ranges), req) == None
  {
    hide Matches, Guarded, Addressed, HeaderPolicies, HeaderNames, FirstMatch, ProxyEntries, RouteError, ForwardAction,
      Carries;
    Renderable(r, policy, ranges);
    var base, policies := Guarded(r, ranges), HeaderPolicies(auth);
    GuardedMeaning(net, r, ranges, req);
    if !r.isProtected {
      OneEntryMeaning(net, base, ForwardAction(r, policy, []), req);
    } else if policies == [] {
      OneEntryMeaning(net, base, Reject(503), req);
    } else {
      var action := ForwardAction(r, policy, HeaderNames(policies));
      FirstMatchOfBoth(net, ProxyEntries(base, policies, action), [Entry(base, Reject(401))], req);
      ProxyEntriesMeaning(net, base, policies, action, req);
      OneEntryMeaning(net, base, Reject(401), req);
    }
  }

  lemma NotDenied(r: Route, policy: Policy, d: string, req: Request)
    requires Addressed(r, req) && !Denied(r, policy, req.path) && Exact(r.pathPrefix, d)
    requires d in policy.deniedPrefixes || d in r.security.deniedPrefixes
    ensures !Under(NormalizePrefix(d), req.path)
  {
    hide Reaches, DeniedBy;
    ExactlyDenied(r.pathPrefix, d, req.path);
    if r.pathPrefix == "" && Under(NormalizePrefix(d), req.path) && NormalizePrefix(d) != "" {
      UnderRoot(NormalizePrefix(d), req.path);
    }
  }

  /** With security enabled and not disabled on the route, a request the route proxies has passed every list. */
  lemma ProxiedRequestsPass(
    net: Ranges, r: Route, policy: Policy, auth: Protocol.Auth, ranges: seq<string>, req: Request)
    requires RouteError(r, policy, ranges).None? && Starless(r, policy) && policy.enabled && !r.security.disabled
    requires var first := FirstMatch(net, RouteEntries(r, policy, auth, ranges), req);
             first.Some? && first.value.Forward?
    ensures !AnyRange(net, policy.blocked, req.source) && !AnyRange(net, r.security.blocked, req.source)
    ensures policy.allowed == [] || AnyRange(net, policy.allowed, req.source)
    ensures r.security.allowed == [] || AnyRange(net, r.security.allowed, req.source)
    ensures req.verb !in policy.deniedMethods && req.verb !in r.security.deniedMethods
    ensures !Denied(r, policy, req.path)
    ensures forall d :: (d in policy.deniedPrefixes || d in r.security.deniedPrefixes) && Exact(r.pathPrefix, d) ==>
                          !Under(NormalizePrefix(d), req.path)
    ensures r.exposure == "internal" ==> AnyRange(net, ranges, req.source)
    ensures r.isProtected ==>
              exists h ::
                Opens(auth, h) && Carries(req, h)
                && Lists(FirstMatch(net, RouteEntries(r, policy, auth, ranges), req).value.strip, h.name)
  {
    hide RouteEntries, FirstMatch, RouteError, Starless, Reaches, AnyRange, Denied, DeniedBy, HeaderPolicies,
      HeaderNames, Opens, Carries, Lists, Exact, NormalizePrefix, Under;
    RouteMeaning(net, r, policy, auth, ranges, req);
    forall d | (d in policy.deniedPrefixes || d in r.security.deniedPrefixes) && Exact(r.pathPrefix, d)
      ensures !Under(NormalizePrefix(d), req.path)
    {
      NotDenied(r, policy, d, req);
    }
    if r.isProtected {
      Renderable(r, policy, ranges);
      var h :| h in HeaderPolicies(auth) && Carries(req, h);
      PoliciesMeaning(auth, h);
      CredentialsAreRemoved(HeaderPolicies(auth), h);
    }
  }

  /** Why a request is rejected: each status has its own reasons. */
  lemma RejectedForAReason(
    net: Ranges, r: Route, policy: Policy, auth: Protocol.Auth, ranges: seq<string>, req: Request, status: int)
    requires RouteError(r, policy, ranges).None? && Starless(r, policy)
    requires FirstMatch(net, RouteEntries(r, policy, auth, ranges), req) == Some(Reject(status))
    ensures status in [401, 403, 405, 503] && Reaches(r, req)
    ensures status in [403, 405] ==> policy.enabled && !r.security.disabled
    ensures status == 405 ==> req.verb in policy.deniedMethods || req.verb in r.security.deniedMethods
    ensures status == 403 ==>
              || AnyRange(net, policy.blocked, req.source) || AnyRange(net, r.security.blocked, req.source)
              || (policy.allowed != [] && !AnyRange(net, policy.allowed, req.source))
              || (r.security.allowed != [] && !AnyRange(net, r.security.allowed, req.source))
              || Denied(r, policy, req.path)
    ensures status in [401, 503] ==> r.isProtected && forall h :: Opens(auth, h) ==> !Carries(req, h)
    ensures status == 503 ==> forall h :: !Opens(auth, h)
    ensures status == 401 ==> exists h :: Opens(auth, h)
  {
    hide RouteEntries, FirstMatch, RouteError, Starless, Reaches, AnyRange, Denied, HeaderPolicies, HeaderNames, Opens,
      Carries, Under, NormalizePrefix, Dials, UsesTls, MaxBody;
    RouteMeaning(net, r, policy, auth, ranges, req);
    Renderable(r, policy, ranges);
    forall h ensures h in HeaderPolicies(auth) <==> Opens(auth, h) {
      PoliciesMeaning(auth, h);
    }
    if HeaderPolicies(auth) != [] {
      assert Opens(auth, HeaderPolicies(auth)[0]);
    }
  }
}
